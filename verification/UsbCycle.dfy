/** The usb-cycle: `cycle_csr_radio_once` of `pnp/cycle.rs`.

    As in `Recovery`, the scripts are written out for every answer of the system;
    the method performs one of them, and the theorems speak about all of them. */
module UsbCycle {
  import opened Config
  import opened Devnode
  import opened Journal
  import opened Wrappers

  datatype Verdict = Restarted | NoOp | RebootRequired | Failed

  /** `pnputil_restart_verdict`. */
  function PnputilRestartVerdict(code: nat, took: int): Verdict {
    if code == PNPUTIL_REBOOT_REQUIRED then RebootRequired
    else if code == 0 && took < R2_MIN_REAL_RESTART_MS then NoOp
    else if code == 0 then Restarted
    else Failed
  }

  /** The first enumerated CSR radio. */
  function FirstCsr(devs: seq<Node>): Option<nat> {
    if devs == [] then None else if devs[0].csr then Some(devs[0].id) else FirstCsr(devs[1..])
  }

  /** The radio that a call cycles; `devs` is the enumeration, if it succeeded. */
  function Target(devs: Option<seq<Node>>): Option<nat> {
    if devs.None? then None else FirstCsr(devs.value)
  }

  // -------------------------------------------------------------------------
  // The scripts
  // -------------------------------------------------------------------------

  /** `pnputil /restart-device`: its exit code, if it ended in time, how long it
      took, and the statuses queried afterwards. */
  datatype Restart = Restart(code: Option<nat>, took: int, seen: Sightings) {
    predicate Judged(v: Verdict) {
      code.Some? && PnputilRestartVerdict(code.value, took) == v
    }

    /** This dongle is not cycled again. */
    predicate TurnsOff() {
      Judged(NoOp) || Judged(RebootRequired)
    }

    /** The cycle ends here, without the disable. */
    predicate Settles() {
      TurnsOff() || (Judged(Restarted) && Succeeded(seen))
    }
  }

  predicate RestartEnds(r: Restart) {
    if r.Judged(Restarted) then PollEnds(r.seen, R2_ENABLE_VERIFY_MS, Succeeded(r.seen))
    else if r.Judged(NoOp) then |r.seen| == 1
    else r.seen == []
  }

  function RestartSteps(node: nat, r: Restart): seq<Step> {
    [RestartDevice(node)] + PollSteps(node, r.seen)
  }

  /** The disable: `DICS_DISABLE`, `CM_Disable_DevNode` if that was refused, the
      wait, a second `CM_Disable_DevNode` with its wait if nothing was observed, and
      the last look at a radio that did not go down. */
  datatype Disable = Disable(dif: bool, cm: bool, first: Sightings, again: bool, second: Sightings, last: Sightings) {
    predicate Accepted() {
      dif || cm
    }

    predicate Retried() {
      Accepted() && !SawDown(first)
    }

    predicate Landed() {
      SawDown(first) || SawDown(second)
    }
  }

  predicate DisableEnds(d: Disable) {
    (if d.Accepted() then DownEnds(d.first, R2_DISABLE_VERIFY_MS, SawDown(d.first)) else d.first == [])
    && (if d.Retried() && d.again then DownEnds(d.second, R2_DISABLE_VERIFY_MS, SawDown(d.second)) else d.second == [])
    && if d.Landed() then d.last == [] else |d.last| == 1
  }

  function TakeDownSteps(node: nat, d: Disable): seq<Step> {
    [Change(node, false, d.dif)] + if d.dif then [] else [CmDisable(node, d.cm)]
  }

  function RetrySteps(node: nat, d: Disable): seq<Step> {
    if d.Retried() then [CmDisable(node, d.again)] + PollSteps(node, d.second) else []
  }

  function DisableSteps(node: nat, d: Disable): seq<Step> {
    TakeDownSteps(node, d) + PollSteps(node, d.first) + RetrySteps(node, d) + PollSteps(node, d.last)
  }

  /** How a cycle ends: the journal is removed if the target is up, and a dongle that
      cannot be restarted is marked. */
  function Tail(up: bool, gone: bool, off: bool): seq<Step> {
    (if up then [DisarmJournal(gone)] else []) + (if off then [WriteCycleOff] else [])
  }

  /** One cycle from the arming on: the restart if pnputil was found, the disable,
      the rounds of the enable, and whether removing the journal file worked. */
  datatype Cycle = Cycle(
    armed: bool, onDisk: bool, restart: Option<Restart>, disable: Option<Disable>, rounds: seq<Round>, gone: bool)
  {
    predicate Restarts() {
      restart.Some? && restart.value.Settles()
    }

    predicate Landed() {
      disable.Some? && disable.value.Landed()
    }

    predicate TurnsOff() {
      restart.Some? && restart.value.TurnsOff()
    }

    /** The last look at the target found it STARTED. */
    predicate FindsUp() {
      if Restarts() then Succeeded(restart.value.seen)
      else if Landed() then RoundsOk(rounds)
      else disable.Some? && Succeeded(disable.value.last)
    }

    /** What the ladder is told. */
    predicate Ok() {
      if Restarts() then !TurnsOff() else Landed() && RoundsOk(rounds)
    }
  }

  predicate LegalCycle(c: Cycle, pnputil: bool) {
    (c.armed ==> c.onDisk)
    && (c.restart.Some? <==> c.armed && pnputil)
    && (c.restart.Some? ==> RestartEnds(c.restart.value))
    && (c.disable.Some? <==> c.armed && !c.Restarts())
    && (c.disable.Some? ==> DisableEnds(c.disable.value))
    && if c.Landed() then RoundsEnd(c.rounds, R2_ENABLE_VERIFY_MS) else c.rounds == []
  }

  function EnableSteps(node: nat, rounds: seq<Round>): seq<Step> {
    if rounds == [] then [] else [Sleep(R2_DISABLE_QUIET_MS)] + RoundsSteps(node, rounds)
  }

  /** What is done to the target between the arming and the end. */
  function BodySteps(node: nat, c: Cycle): seq<Step> {
    (if c.restart.Some? then RestartSteps(node, c.restart.value) else [])
    + (if c.disable.Some? then DisableSteps(node, c.disable.value) else [])
    + EnableSteps(node, c.rounds)
  }

  // The cycle up to its decision about the journal.
  function BeforeTail(node: nat, c: Cycle): seq<Step> {
    [ArmJournal(c.armed, c.onDisk)] + BodySteps(node, c)
  }

  function CycleSteps(node: nat, c: Cycle): seq<Step> {
    BeforeTail(node, c) + Tail(c.FindsUp(), c.gone, c.TurnsOff())
  }

  /** A whole call: without a target nothing is done. */
  function CallSteps(devs: Option<seq<Node>>, c: Cycle): seq<Step> {
    if Target(devs).None? then [] else CycleSteps(Target(devs).value, c)
  }

  // -------------------------------------------------------------------------
  // What a script does to the world
  // -------------------------------------------------------------------------

  /** No other radio is taken down or seen. */
  predicate Concerns(s: Step, node: nat) {
    TakesDown(s) || SeesStarted(s) ==> s.node == node
  }

  /** Neither the journal nor the off switch is touched. */
  predicate KeepsFiles(s: Step) {
    !s.ArmJournal? && !s.DisarmJournal? && !s.WriteCycleOff?
  }

  /** Steps of that kind only. */
  predicate About(t: seq<Step>, node: nat) {
    t == []
    || (About(t[..|t| - 1], node) && Concerns(t[|t| - 1], node) && KeepsFiles(t[|t| - 1]))
  }

  lemma {:induction false} AboutConcat(t: seq<Step>, u: seq<Step>, node: nat)
    requires About(t, node) && About(u, node)
    ensures About(t + u, node)
    ensures SeenLast(u, node) || (u == [] && SeenLast(t, node)) ==> SeenLast(t + u, node)
    decreases |u|
  {
    if u == [] {
      assert t + u == t;
    } else {
      assert (t + u)[..|t + u| - 1] == t + u[..|u| - 1];
      AboutConcat(t, u[..|u| - 1], node);
    }
  }

  lemma OneIsAbout(s: Step, node: nat)
    requires Concerns(s, node) && KeepsFiles(s)
    ensures About([s], node)
  {
    assert [s][..0] == [];
  }

  lemma {:induction false} PollIsAbout(node: nat, seen: Sightings)
    ensures About(PollSteps(node, seen), node)
    ensures Succeeded(seen) ==> SeenLast(PollSteps(node, seen), node)
    decreases |seen|
  {
    if seen != [] {
      var last := Observe(node, seen[|seen| - 1]);
      OneIsAbout(last, node);
      if |seen| > 1 {
        var rest := PollSteps(node, seen[..|seen| - 1]);
        PollIsAbout(node, seen[..|seen| - 1]);
        OneIsAbout(Sleep(R2_REENUM_POLL_MS), node);
        AboutConcat(rest, [Sleep(R2_REENUM_POLL_MS)], node);
        AboutConcat(rest + [Sleep(R2_REENUM_POLL_MS)], [last], node);
      }
    }
  }

  // A step of that kind, and the wait behind it.
  lemma ActIsAbout(s: Step, node: nat, seen: Sightings)
    requires Concerns(s, node) && KeepsFiles(s)
    ensures About([s] + PollSteps(node, seen), node)
    ensures Succeeded(seen) ==> SeenLast([s] + PollSteps(node, seen), node)
  {
    OneIsAbout(s, node);
    PollIsAbout(node, seen);
    AboutConcat([s], PollSteps(node, seen), node);
  }

  lemma RoundIsAbout(node: nat, r: Round)
    ensures About(RoundSteps(node, r), node)
    ensures r.Ok() ==> SeenLast(RoundSteps(node, r), node)
  {
    var head := [Change(node, true, r.dif)] + PollSteps(node, r.afterDif);
    ActIsAbout(Change(node, true, r.dif), node, r.afterDif);
    ActIsAbout(CmEnable(node, r.cm), node, r.afterCm);
    AboutConcat(head, if Succeeded(r.afterDif) then [] else [CmEnable(node, r.cm)] + PollSteps(node, r.afterCm), node);
  }

  lemma {:induction false} RoundsAreAbout(node: nat, rs: seq<Round>)
    ensures About(RoundsSteps(node, rs), node)
    ensures RoundsOk(rs) ==> SeenLast(RoundsSteps(node, rs), node)
    decreases |rs|
  {
    if rs != [] {
      var last := RoundSteps(node, rs[|rs| - 1]);
      RoundIsAbout(node, rs[|rs| - 1]);
      if |rs| > 1 {
        var rest, pause := RoundsSteps(node, rs[..|rs| - 1]), [Sleep(R1_REENABLE_RETRY_MS * 2)];
        RoundsAreAbout(node, rs[..|rs| - 1]);
        OneIsAbout(Sleep(R1_REENABLE_RETRY_MS * 2), node);
        AboutConcat(rest, pause, node);
        AboutConcat(rest + pause, last, node);
      }
    }
  }

  lemma DisableIsAbout(node: nat, d: Disable)
    ensures About(DisableSteps(node, d), node)
    ensures Succeeded(d.last) ==> SeenLast(DisableSteps(node, d), node)
  {
    var down := TakeDownSteps(node, d);
    OneIsAbout(Change(node, false, d.dif), node);
    OneIsAbout(CmDisable(node, d.cm), node);
    AboutConcat([Change(node, false, d.dif)], if d.dif then [] else [CmDisable(node, d.cm)], node);
    PollIsAbout(node, d.first);
    AboutConcat(down, PollSteps(node, d.first), node);
    ActIsAbout(CmDisable(node, d.again), node, d.second);
    AboutConcat(down + PollSteps(node, d.first), RetrySteps(node, d), node);
    PollIsAbout(node, d.last);
    AboutConcat(down + PollSteps(node, d.first) + RetrySteps(node, d), PollSteps(node, d.last), node);
  }

  lemma EnableIsAbout(node: nat, rounds: seq<Round>)
    ensures About(EnableSteps(node, rounds), node)
    ensures RoundsOk(rounds) ==> SeenLast(EnableSteps(node, rounds), node)
  {
    RoundsAreAbout(node, rounds);
    OneIsAbout(Sleep(R2_DISABLE_QUIET_MS), node);
    AboutConcat([Sleep(R2_DISABLE_QUIET_MS)], RoundsSteps(node, rounds), node);
  }

  /** All that happens between the arming and the end concerns the target, leaves the
      journal alone, and ends in a STARTED observation if the target is found up. */
  lemma BodyIsAbout(node: nat, c: Cycle, pnputil: bool)
    requires LegalCycle(c, pnputil)
    ensures About(BodySteps(node, c), node)
    ensures c.FindsUp() ==> SeenLast(BodySteps(node, c), node)
  {
    var t := if c.restart.Some? then RestartSteps(node, c.restart.value) else [];
    var u := if c.disable.Some? then DisableSteps(node, c.disable.value) else [];
    if c.restart.Some? {
      ActIsAbout(RestartDevice(node), node, c.restart.value.seen);
    }
    if c.disable.Some? {
      DisableIsAbout(node, c.disable.value);
    }
    EnableIsAbout(node, c.rounds);
    AboutConcat(t, u, node);
    AboutConcat(t + u, EnableSteps(node, c.rounds), node);
  }

  // The two sets agree on every radio but `node`.
  ghost predicate SameOthers(a: set<nat>, b: set<nat>, node: nat) {
    forall n :: n != node ==> (n in a <==> n in b)
  }

  lemma {:induction false} AboutWorld(w: World, t: seq<Step>, node: nat)
    requires About(t, node) && w.journal
    ensures CrashSafe(w, t) && Replay(w, t).journal && SameOthers(Replay(w, t).atRisk, w.atRisk, node)
    ensures SeenLast(t, node) ==> node !in Replay(w, t).atRisk
    decreases |t|
  {
    if t != [] {
      AboutWorld(w, t[..|t| - 1], node);
      assert t[|t| - 1] in t;
    }
  }

  /** The world after the arming and the body: the journal is there, only the
      target's risk may differ, and a target that is found up is not at risk. */
  lemma ArmedThroughout(w: World, node: nat, c: Cycle, pnputil: bool)
    requires Safe(w) && LegalCycle(c, pnputil)
    ensures var y := Replay(w, BeforeTail(node, c));
            CrashSafe(w, BeforeTail(node, c)) && (y.journal <==> w.journal || c.onDisk)
            && SameOthers(y.atRisk, w.atRisk, node) && (c.FindsUp() ==> y.journal && node !in y.atRisk)
  {
    var arm := ArmJournal(c.armed, c.onDisk);
    ArmFirst(w, arm, BodySteps(node, c));
    if c.armed {
      BodyIsAbout(node, c, pnputil);
      AboutWorld(Apply(w, arm), BodySteps(node, c), node);
    } else {
      assert BodySteps(node, c) == [];
    }
  }

  lemma NoneLeft(a: set<nat>, b: set<nat>, node: nat)
    requires SameOthers(a, b, node) && node !in a
    ensures a == {} <==> b <= {node}
  {
    assert forall n :: n in a <==> n in b && n != node;
  }

  lemma TailIsSafe(w: World, t: seq<Step>, up: bool, gone: bool, off: bool)
    requires CrashSafe(w, t) && (up ==> Replay(w, t).journal)
    ensures CrashSafe(w, t + Tail(up, gone, off)) <==> !(up && gone) || Replay(w, t).atRisk == {}
    ensures Replay(w, t + Tail(up, gone, off)).journal <==> Replay(w, t).journal && !(up && gone)
    ensures Replay(w, t + Tail(up, gone, off)).atRisk == Replay(w, t).atRisk
  {
    var u := t + if up then [DisarmJournal(gone)] else [];
    if up {
      CrashSafeSnoc(w, t, DisarmJournal(gone));
    } else {
      assert u == t;
    }
    if off {
      CrashSafeSnoc(w, u, WriteCycleOff);
      Reassociate(t, if up then [DisarmJournal(gone)] else [], [WriteCycleOff]);
    } else {
      assert t + Tail(up, gone, off) == u;
    }
  }

  /** One script: it is crash safe exactly when it keeps the journal or no other
      radio was at risk. */
  lemma CycleSafe(w: World, node: nat, c: Cycle, pnputil: bool)
    requires Safe(w) && LegalCycle(c, pnputil)
    ensures CrashSafe(w, BeforeTail(node, c))
    ensures CrashSafe(w, CycleSteps(node, c)) <==> !(c.FindsUp() && c.gone) || w.atRisk <= {node}
  {
    ArmedThroughout(w, node, c, pnputil);
    TailIsSafe(w, BeforeTail(node, c), c.FindsUp(), c.gone, c.TurnsOff());
    if c.FindsUp() {
      NoneLeft(Replay(w, BeforeTail(node, c)).atRisk, w.atRisk, node);
    }
  }

  // -------------------------------------------------------------------------
  // The target is always covered
  // -------------------------------------------------------------------------

  /** The world as far as one radio is concerned. */
  function Only(w: World, node: nat): World {
    w.(atRisk := w.atRisk * {node})
  }

  predicate Local(t: seq<Step>, node: nat) {
    t == [] || (Local(t[..|t| - 1], node) && Concerns(t[|t| - 1], node))
  }

  lemma {:induction false} OnlyReplay(w: World, t: seq<Step>, node: nat)
    requires Local(t, node)
    ensures Replay(Only(w, node), t) == Only(Replay(w, t), node)
    decreases |t|
  {
    if t != [] {
      OnlyReplay(w, t[..|t| - 1], node);
      var x, s := Replay(w, t[..|t| - 1]), t[|t| - 1];
      assert Apply(Only(x, node), s).atRisk == Only(Apply(x, s), node).atRisk;
    }
  }

  // `t` does not even have to leave the journal alone.
  lemma {:induction false} LocalConcat(t: seq<Step>, u: seq<Step>, node: nat)
    requires Local(t, node) && About(u, node)
    ensures Local(t + u, node)
    decreases |u|
  {
    if u == [] {
      assert t + u == t;
    } else {
      assert (t + u)[..|t + u| - 1] == t + u[..|u| - 1];
      LocalConcat(t, u[..|u| - 1], node);
    }
  }

  lemma LocalSnoc(t: seq<Step>, s: Step, node: nat)
    requires Local(t, node) && Concerns(s, node)
    ensures Local(t + [s], node)
  {
    assert (t + [s])[..|t|] == t;
  }

  lemma {:induction false} LocalPrefix(t: seq<Step>, node: nat, n: nat)
    requires Local(t, node) && n <= |t|
    ensures Local(t[..n], node)
    decreases |t|
  {
    if n == |t| {
      assert t[..n] == t;
    } else {
      LocalPrefix(t[..|t| - 1], node, n);
      assert t[..|t| - 1][..n] == t[..n];
    }
  }

  lemma TailIsLocal(t: seq<Step>, node: nat, up: bool, gone: bool, off: bool)
    requires Local(t, node)
    ensures Local(t + Tail(up, gone, off), node)
  {
    var disarm := if up then [DisarmJournal(gone)] else [];
    LocalSnoc(t, DisarmJournal(gone), node);
    NothingYet(t);
    assert Local(t + disarm, node);
    NothingYet(disarm);
    if off {
      LocalSnoc(t + disarm, WriteCycleOff, node);
      Reassociate(t, disarm, [WriteCycleOff]);
    }
  }

  lemma CycleIsLocal(node: nat, c: Cycle, pnputil: bool)
    requires LegalCycle(c, pnputil)
    ensures Local(CycleSteps(node, c), node)
  {
    var arm := ArmJournal(c.armed, c.onDisk);
    BodyIsAbout(node, c, pnputil);
    LocalSnoc([], arm, node);
    assert [] + [arm] == [arm];
    LocalConcat([arm], BodySteps(node, c), node);
    TailIsLocal(BeforeTail(node, c), node, c.FindsUp(), c.gone, c.TurnsOff());
  }

  lemma OnlyIsSafe(w: World, t: seq<Step>, node: nat, n: nat)
    requires Local(t, node) && CrashSafe(Only(w, node), t) && n <= |t|
    ensures node in Replay(w, t[..n]).atRisk ==> Replay(w, t[..n]).journal
  {
    CrashSafeMeans(Only(w, node), t);
    LocalPrefix(t, node, n);
    OnlyReplay(w, t[..n], node);
    var y := Replay(w, t[..n]);
    assert Safe(Only(y, node));
    assert node in y.atRisk ==> node in Only(y, node).atRisk;
  }

  /** THE TARGET IS COVERED: wherever the process is killed, the journal is on disk
      unless the target was seen STARTED since it was last taken down -- whatever
      else is at risk. */
  lemma TargetIsCovered(w: World, node: nat, c: Cycle, pnputil: bool, n: nat)
    requires LegalCycle(c, pnputil) && (node in w.atRisk ==> w.journal) && n <= |CycleSteps(node, c)|
    ensures var y := Replay(w, CycleSteps(node, c)[..n]); node in y.atRisk ==> y.journal
  {
    CycleSafe(Only(w, node), node, c, pnputil);
    CycleIsLocal(node, c, pnputil);
    OnlyIsSafe(w, CycleSteps(node, c), node, n);
  }

  /** A cycle that reports success leaves its target out of danger, whether or not
      the journal could be removed. */
  lemma SuccessIsObserved(w: World, node: nat, c: Cycle, pnputil: bool)
    requires Safe(w) && LegalCycle(c, pnputil) && c.Ok()
    ensures c.FindsUp() && SeenLast(BodySteps(node, c), node)
    ensures node !in Replay(w, CycleSteps(node, c)).atRisk
  {
    BodyIsAbout(node, c, pnputil);
    ArmedThroughout(w, node, c, pnputil);
    TailIsSafe(w, BeforeTail(node, c), c.FindsUp(), c.gone, c.TurnsOff());
  }

  /** Whatever was observed on the way, an armed cycle that does not end in a STARTED
      observation -- a disable that landed and an enable that failed, say -- leaves the
      journal on disk. */
  lemma NotUpKeepsJournal(w: World, node: nat, c: Cycle, pnputil: bool)
    requires Safe(w) && LegalCycle(c, pnputil) && c.armed && !c.FindsUp()
    ensures Replay(w, CycleSteps(node, c)).journal
  {
    ArmedThroughout(w, node, c, pnputil);
    TailIsSafe(w, BeforeTail(node, c), c.FindsUp(), c.gone, c.TurnsOff());
  }

  // -------------------------------------------------------------------------
  // One journal for all radios
  // -------------------------------------------------------------------------

  /** Every script that a call may perform is crash safe. */
  ghost predicate AllCyclesSafe(w: World, devs: Option<seq<Node>>, pnputil: bool) {
    forall c: Cycle | LegalCycle(c, pnputil) :: CrashSafe(w, CallSteps(devs, c))
  }

  /** The shortest cycle that ends with the radio up: an instant answer to the
      restart, or a disable that is refused. */
  function HarmlessCycle(pnputil: bool): Cycle {
    if pnputil then
      Cycle(true, true, Some(Restart(Some(0), 0, [Some(STARTED)])), None, [], true)
    else
      Cycle(true, true, None, Some(Disable(false, false, [], false, [], [Some(STARTED)])), [], true)
  }

  lemma HarmlessIsLegal(pnputil: bool)
    ensures var c := HarmlessCycle(pnputil); LegalCycle(c, pnputil) && c.FindsUp() && c.gone && !c.Ok()
  {
    assert Succeeded([Some(STARTED)]);
  }

  /** How another radio is forgotten: the cycle removes the journal that also stood
      for it. Safe up to the removal, unsafe after it. */
  lemma CycleUncoversAnother(w: World, node: nat, other: nat, pnputil: bool) returns (c: Cycle)
    requires Safe(w) && other in w.atRisk && other != node
    ensures LegalCycle(c, pnputil) && CrashSafe(w, BeforeTail(node, c)) && !CrashSafe(w, CycleSteps(node, c))
    ensures !Replay(w, CycleSteps(node, c)).journal && other in Replay(w, CycleSteps(node, c)).atRisk
  {
    c := HarmlessCycle(pnputil);
    HarmlessIsLegal(pnputil);
    CycleSafe(w, node, c, pnputil);
    ArmedThroughout(w, node, c, pnputil);
    TailIsSafe(w, BeforeTail(node, c), c.FindsUp(), c.gone, c.TurnsOff());
  }

  /** EXACTLY WHEN A CYCLE IS CRASH SAFE, whatever the system answers: no CSR radio is
      enumerated, or no radio but the first enumerated one is at risk. */
  lemma AllCyclesSafeIff(w: World, devs: Option<seq<Node>>, pnputil: bool)
    requires Safe(w)
    ensures AllCyclesSafe(w, devs, pnputil) <==> Target(devs).None? || w.atRisk <= {Target(devs).value}
  {
    if Target(devs).None? {
      assert forall c :: CallSteps(devs, c) == [];
    } else if w.atRisk <= {Target(devs).value} {
      forall c: Cycle | LegalCycle(c, pnputil) ensures CrashSafe(w, CallSteps(devs, c)) {
        CycleSafe(w, Target(devs).value, c, pnputil);
      }
    } else {
      var other :| other in w.atRisk && other != Target(devs).value;
      var c := CycleUncoversAnother(w, Target(devs).value, other, pnputil);
    }
  }

  // -------------------------------------------------------------------------
  // Told by exit codes and status bits
  // -------------------------------------------------------------------------

  /** pnputil cannot restart this dongle: it asked for a reboot, or answered success
      faster than any restart is. */
  predicate Refuses(c: Cycle) {
    c.restart.Some?
    && (c.restart.value.code == Some(3010) || (c.restart.value.code == Some(0) && c.restart.value.took < 1_000))
  }

  /** The last query of a wait: a problem, and problem code 22. */
  predicate EndsDisabled(seen: Sightings) {
    seen != [] && seen[|seen| - 1].Some?
    && seen[|seen| - 1].value.problemBit && seen[|seen| - 1].value.problem == 22
  }

  /** pnputil really restarted the dongle, and it is up again. */
  predicate RealRestart(c: Cycle) {
    c.restart.Some? && c.restart.value.code == Some(0) && c.restart.value.took >= 1_000
    && EndsStarted(c.restart.value.seen)
  }

  /** The dongle was seen disabled, by the first wait or by the second. */
  predicate GoesDown(c: Cycle) {
    c.disable.Some? && (EndsDisabled(c.disable.value.first) || EndsDisabled(c.disable.value.second))
  }

  /** The last round of the enable saw it started. */
  predicate ComesUp(c: Cycle) {
    c.rounds != [] && (EndsStarted(c.rounds[|c.rounds| - 1].afterDif) || EndsStarted(c.rounds[|c.rounds| - 1].afterCm))
  }

  lemma {:induction false} AboutMembers(t: seq<Step>, node: nat)
    requires About(t, node)
    ensures forall s <- t :: Concerns(s, node) && KeepsFiles(s)
    decreases |t|
  {
    if t != [] {
      AboutMembers(t[..|t| - 1], node);
      assert t == t[..|t| - 1] + [t[|t| - 1]];
    }
  }

  // A step that neither disables nor enables a devnode.
  predicate Gentle(s: Step) {
    !s.Change? && !s.CmDisable? && !s.CmEnable?
  }

  lemma {:induction false} PollIsGentle(node: nat, seen: Sightings)
    ensures forall s <- PollSteps(node, seen) :: Gentle(s)
    decreases |seen|
  {
    if |seen| > 1 {
      PollIsGentle(node, seen[..|seen| - 1]);
    }
  }

  // What is in front of the tail says nothing about the files, and the tail nothing else.
  lemma InTail(arm: Step, body: seq<Step>, up: bool, gone: bool, off: bool)
    requires arm.ArmJournal? && forall s <- body :: KeepsFiles(s)
    ensures var t := [arm] + body + Tail(up, gone, off);
            (WriteCycleOff in t <==> off) && (Disarms(t) <==> up)
            && (forall s <- t :: Gentle(s) || s in body) && forall s <- body :: s in t
  {
    var tail, t := Tail(up, gone, off), [arm] + body + Tail(up, gone, off);
    assert up ==> tail[0] in tail;
    assert off ==> tail[|tail| - 1] in tail;
    assert forall s <- tail :: s in t;
  }

  lemma InCycle(node: nat, c: Cycle, pnputil: bool)
    requires LegalCycle(c, pnputil)
    ensures WriteCycleOff in CycleSteps(node, c) <==> c.TurnsOff()
    ensures Disarms(CycleSteps(node, c)) <==> c.FindsUp()
    ensures forall s <- CycleSteps(node, c) :: Gentle(s) || s in BodySteps(node, c)
    ensures forall s <- BodySteps(node, c) :: s in CycleSteps(node, c)
  {
    BodyIsAbout(node, c, pnputil);
    AboutMembers(BodySteps(node, c), node);
    InTail(ArmJournal(c.armed, c.onDisk), BodySteps(node, c), c.FindsUp(), c.gone, c.TurnsOff());
  }

  // The verdicts of the code, by codes and bits.
  lemma Told(c: Cycle, pnputil: bool)
    requires LegalCycle(c, pnputil)
    ensures c.TurnsOff() <==> Refuses(c)
    ensures c.Restarts() <==> Refuses(c) || RealRestart(c)
    ensures c.Landed() <==> GoesDown(c)
    ensures RoundsOk(c.rounds) <==> ComesUp(c)
  {
  }

  lemma GentleBody(node: nat, c: Cycle, pnputil: bool)
    requires LegalCycle(c, pnputil) && c.disable.None?
    ensures forall s <- BodySteps(node, c) :: Gentle(s)
  {
    if c.restart.Some? {
      PollIsGentle(node, c.restart.value.seen);
    }
  }

  lemma RoughBody(node: nat, c: Cycle, pnputil: bool)
    requires LegalCycle(c, pnputil) && c.disable.Some?
    ensures Change(node, false, c.disable.value.dif) in BodySteps(node, c)
  {
    var d := DisableSteps(node, c.disable.value);
    assert d[0] == Change(node, false, c.disable.value.dif);
    assert d[0] in d;
  }

  predicate Disables(node: nat, t: seq<Step>) {
    exists s <- t :: s.Change? && s.node == node && !s.enable
  }

  lemma RoughIff(node: nat, c: Cycle, pnputil: bool)
    requires LegalCycle(c, pnputil)
    ensures Disables(node, CycleSteps(node, c)) <==> c.disable.Some?
    ensures c.disable.None? ==> forall s <- CycleSteps(node, c) :: Gentle(s)
  {
    InCycle(node, c, pnputil);
    if c.disable.Some? {
      RoughBody(node, c, pnputil);
    } else {
      GentleBody(node, c, pnputil);
    }
  }

  /** THE OFF SWITCH: a dongle is marked "never cycle again" exactly if pnputil ended with
      3010, or with 0 in less than a second; exactly then and after a real restart the
      dongle is not disabled, and only the real restart is a success. */
  lemma OffIff(node: nat, c: Cycle, pnputil: bool)
    requires LegalCycle(c, pnputil)
    ensures WriteCycleOff in CycleSteps(node, c) <==> Refuses(c)
    ensures Disables(node, CycleSteps(node, c)) <==> c.armed && !Refuses(c) && !RealRestart(c)
    ensures Refuses(c) || RealRestart(c) ==> forall s <- CycleSteps(node, c) :: Gentle(s)
    ensures Refuses(c) ==> !c.Ok()
  {
    InCycle(node, c, pnputil);
    RoughIff(node, c, pnputil);
    Told(c, pnputil);
  }

  /** How often `CM_Disable_DevNode` was called. */
  function CmCalls(t: seq<Step>): nat {
    if t == [] then 0 else CmCalls(t[..|t| - 1]) + (if t[|t| - 1].CmDisable? then 1 else 0)
  }

  lemma {:induction false} CmCallsConcat(t: seq<Step>, u: seq<Step>)
    ensures CmCalls(t + u) == CmCalls(t) + CmCalls(u)
    decreases |u|
  {
    if u == [] {
      assert t + u == t;
    } else {
      assert (t + u)[..|t + u| - 1] == t + u[..|u| - 1];
      CmCallsConcat(t, u[..|u| - 1]);
    }
  }

  lemma {:induction false} NoCmCall(t: seq<Step>)
    requires forall s <- t :: !s.CmDisable?
    ensures CmCalls(t) == 0
    decreases |t|
  {
    if t != [] {
      assert t[|t| - 1] in t;
      NoCmCall(t[..|t| - 1]);
    }
  }

  lemma OneCmCall(s: Step)
    ensures CmCalls([s]) == if s.CmDisable? then 1 else 0
  {
    assert [s][..0] == [];
  }

  lemma NoneInPolls(node: nat, d: Disable)
    ensures CmCalls(PollSteps(node, d.first)) == CmCalls(PollSteps(node, d.second)) == 0
    ensures CmCalls(PollSteps(node, d.last)) == 0
  {
    hide CmCalls, PollSteps;
    PollIsGentle(node, d.first);
    PollIsGentle(node, d.second);
    PollIsGentle(node, d.last);
    NoCmCall(PollSteps(node, d.first));
    NoCmCall(PollSteps(node, d.second));
    NoCmCall(PollSteps(node, d.last));
  }

  lemma CmInDisable(node: nat, d: Disable)
    ensures CmCalls(DisableSteps(node, d)) == (if d.dif then 0 else 1) + (if d.Retried() then 1 else 0)
  {
    hide CmCalls, PollSteps;
    var down, first := TakeDownSteps(node, d), PollSteps(node, d.first);
    NoneInPolls(node, d);
    NoCmCall([]);
    OneCmCall(Change(node, false, d.dif));
    OneCmCall(CmDisable(node, d.cm));
    OneCmCall(CmDisable(node, d.again));
    CmCallsConcat([Change(node, false, d.dif)], if d.dif then [] else [CmDisable(node, d.cm)]);
    CmCallsConcat([CmDisable(node, d.again)], PollSteps(node, d.second));
    CmCallsConcat(down, first);
    CmCallsConcat(down + first, RetrySteps(node, d));
    CmCallsConcat(down + first + RetrySteps(node, d), PollSteps(node, d.last));
  }

  lemma {:induction false} NoDisableInRounds(node: nat, rounds: seq<Round>)
    ensures forall s <- RoundsSteps(node, rounds) :: !s.CmDisable?
    decreases |rounds|
  {
    if rounds != [] {
      var r := rounds[|rounds| - 1];
      NoDisableInRounds(node, rounds[..|rounds| - 1]);
      PollIsGentle(node, r.afterDif);
      PollIsGentle(node, r.afterCm);
    }
  }

  lemma NoneElsewhere(node: nat, c: Cycle)
    ensures c.restart.Some? ==> CmCalls(RestartSteps(node, c.restart.value)) == 0
    ensures CmCalls(EnableSteps(node, c.rounds)) == 0
    ensures CmCalls(Tail(c.FindsUp(), c.gone, c.TurnsOff())) == 0
  {
    hide CmCalls;
    if c.restart.Some? {
      PollIsGentle(node, c.restart.value.seen);
      NoCmCall(RestartSteps(node, c.restart.value));
    }
    NoDisableInRounds(node, c.rounds);
    NoCmCall(EnableSteps(node, c.rounds));
    NoCmCall(Tail(c.FindsUp(), c.gone, c.TurnsOff()));
  }

  lemma CmInCycle(node: nat, c: Cycle, pnputil: bool)
    requires LegalCycle(c, pnputil) && c.disable.Some?
    ensures CmCalls(CycleSteps(node, c)) == CmCalls(DisableSteps(node, c.disable.value))
  {
    hide CmCalls, LegalCycle, RestartSteps, DisableSteps, EnableSteps, Tail;
    var restart := if c.restart.Some? then RestartSteps(node, c.restart.value) else [];
    var disable, enable := DisableSteps(node, c.disable.value), EnableSteps(node, c.rounds);
    NoneElsewhere(node, c);
    NoCmCall([]);
    OneCmCall(ArmJournal(c.armed, c.onDisk));
    CmCallsConcat(restart, disable);
    CmCallsConcat(restart + disable, enable);
    CmCallsConcat([ArmJournal(c.armed, c.onDisk)], BodySteps(node, c));
    CmCallsConcat(BeforeTail(node, c), Tail(c.FindsUp(), c.gone, c.TurnsOff()));
  }

  /** HOW THE DONGLE IS DISABLED: `CM_Disable_DevNode` is called once if the first way
      was refused, and once more exactly if one was accepted and the wait behind it did
      not end in a disabled status; each accepted call is waited for, and a dongle that
      did not go down gets a last look. */
  lemma DisableTold(node: nat, c: Cycle, pnputil: bool)
    requires LegalCycle(c, pnputil) && c.disable.Some?
    ensures var d := c.disable.value;
            var accepted := d.dif || d.cm;
            CmCalls(CycleSteps(node, c))
            == (if d.dif then 0 else 1) + (if accepted && !EndsDisabled(d.first) then 1 else 0)
            && (d.first != [] <==> accepted)
            && (d.second != [] <==> accepted && !EndsDisabled(d.first) && d.again)
            && (d.last != [] <==> !GoesDown(c))
  {
    hide CmCalls, CycleSteps, DisableSteps;
    CmInCycle(node, c, pnputil);
    CmInDisable(node, c.disable.value);
  }

  /** WHAT A CYCLE REPORTS: success exactly if the dongle was really restarted and is up,
      or was seen disabled and then started; the enable is tried exactly after it was seen
      disabled. */
  lemma OkIff(c: Cycle, pnputil: bool)
    requires LegalCycle(c, pnputil)
    ensures c.Ok() <==> RealRestart(c) || (GoesDown(c) && ComesUp(c))
    ensures c.rounds != [] <==> GoesDown(c)
  {
    Told(c, pnputil);
    if GoesDown(c) {
      assert RoundsEnd(c.rounds, R2_ENABLE_VERIFY_MS);
    }
  }

  // The last look at the dongle found it started.
  predicate SeenUp(c: Cycle) {
    if Refuses(c) || RealRestart(c) then EndsStarted(c.restart.value.seen)
    else if GoesDown(c) then ComesUp(c)
    else c.disable.Some? && EndsStarted(c.disable.value.last)
  }

  lemma SeenUpIff(c: Cycle, pnputil: bool)
    requires LegalCycle(c, pnputil)
    ensures c.FindsUp() <==> SeenUp(c)
    ensures c.restart.Some? && c.restart.value.code == Some(3010) ==> !SeenUp(c)
  {
    Told(c, pnputil);
  }

  /** WHEN THE JOURNAL GOES: exactly if the last look at the dongle -- behind the restart,
      behind a disable that did not land, or of the enable -- found it started; behind
      3010 there is none, and the journal stays. */
  lemma DisarmIff(node: nat, c: Cycle, pnputil: bool)
    requires LegalCycle(c, pnputil)
    ensures Disarms(CycleSteps(node, c)) <==> SeenUp(c)
    ensures c.restart.Some? && c.restart.value.code == Some(3010) ==> !Disarms(CycleSteps(node, c))
  {
    InCycle(node, c, pnputil);
    SeenUpIff(c, pnputil);
  }

  // -------------------------------------------------------------------------
  // The code performs a script
  // -------------------------------------------------------------------------

  // The decision about the journal, after the last look at the target.
  method Finish(io: PnpIo, up: bool, off: bool) returns (ghost gone: bool)
    requires io.Valid()
    modifies io
    ensures io.Valid() && io.trace == old(io.trace) + Tail(up, gone, off)
  {
    gone := false;
    NothingYet(io.trace);
    if up {
      io.JournalDisarm();
      gone := io.trace[|io.trace| - 1].gone;
    }
    ghost var t := if up then [DisarmJournal(gone)] else [];
    assert io.trace == old(io.trace) + t;
    if off {
      io.CycleOffWrite();
      Reassociate(old(io.trace), t, [WriteCycleOff]);
    } else {
      NothingYet(t);
    }
  }

  /** `devnode_started`. */
  method LookOnce(io: PnpIo, target: nat) returns (up: bool, ghost seen: Sightings)
    requires io.Valid()
    modifies io
    ensures io.Valid() && |seen| == 1 && io.trace == old(io.trace) + PollSteps(target, seen) && up == Succeeded(seen)
  {
    var s := io.DevnodeStatus(target);
    up, seen := s.Some? && MeansStarted(s.value), [s];
  }

  // What the query behind a verdict, if any, has seen.
  method LookAfter(io: PnpIo, target: nat, verdict: Verdict) returns (up: bool, ghost seen: Sightings)
    requires io.Valid()
    modifies io
    ensures io.Valid() && io.trace == old(io.trace) + PollSteps(target, seen) && up == Succeeded(seen)
    ensures if verdict.Restarted? then PollEnds(seen, R2_ENABLE_VERIFY_MS, up)
            else if verdict.NoOp? then |seen| == 1 else seen == []
  {
    up, seen := false, [];
    match verdict {
      case Restarted => up, seen := WaitDevnodeStarted(io, target, R2_ENABLE_VERIFY_MS);
      case NoOp => up, seen := LookOnce(io, target);
      case RebootRequired => NothingYet(io.trace);
      case Failed => NothingYet(io.trace);
    }
  }

  /** The non-persistent path: `pnputil /restart-device`, judged by exit code and
      duration. `Some(verdict)` ends the cycle, `None` falls through. */
  method RestartPath(io: PnpIo, target: nat) returns (result: Option<bool>, ghost r: Restart, ghost gone: bool)
    requires io.Valid()
    modifies io
    ensures io.Valid() && RestartEnds(r)
    ensures result == if r.Settles() then Some(!r.TurnsOff()) else None
    ensures io.trace == old(io.trace) + RestartSteps(target, r)
                        + (if r.Settles() then Tail(Succeeded(r.seen), gone, r.TurnsOff()) else [])
  {
    var code, took := io.PnputilRestart(target);
    result, gone := None, false;
    r := Restart(code, took, []);
    if code.None? {
      NothingYet(io.trace);
      return;
    }
    var verdict := PnputilRestartVerdict(code.value, took);
    var up;
    ghost var seen;
    up, seen := LookAfter(io, target, verdict);
    r := r.(seen := seen);
    Reassociate(old(io.trace), [RestartDevice(target)], PollSteps(target, seen));
    if (verdict.Restarted? && up) || verdict.NoOp? || verdict.RebootRequired? {
      gone := Finish(io, up, !verdict.Restarted?);
      result := Some(verdict.Restarted?);
    } else {
      NothingYet(io.trace);
    }
  }

  // `DICS_DISABLE`, then `CM_Disable_DevNode` if that was refused.
  method TakeDown(io: PnpIo, target: nat) returns (dif: bool, cm: bool)
    requires io.Valid()
    modifies io
    ensures io.Valid()
    ensures io.trace == old(io.trace) + [Change(target, false, dif)] + if dif then [] else [CmDisable(target, cm)]
  {
    dif := io.PropChange(target, false);
    cm := false;
    if !dif {
      cm := io.DisableDevnode(target);
    } else {
      NothingYet(io.trace);
    }
  }

  // An accepted disable is judged by the status it leads to.
  method AwaitDown(io: PnpIo, target: nat, accepted: bool) returns (landed: bool, ghost seen: Sightings)
    requires io.Valid()
    modifies io
    ensures io.Valid() && io.trace == old(io.trace) + PollSteps(target, seen) && landed == SawDown(seen)
    ensures if accepted then DownEnds(seen, R2_DISABLE_VERIFY_MS, landed) else seen == []
  {
    landed, seen := false, [];
    if accepted {
      landed, seen := WaitDevnodeDisabled(io, target, R2_DISABLE_VERIFY_MS);
    } else {
      NothingYet(io.trace);
    }
  }

  // The second try, if the first was accepted and nothing was observed.
  method Retry(io: PnpIo, target: nat, due: bool) returns (again: bool, landed: bool, ghost seen: Sightings)
    requires io.Valid()
    modifies io
    ensures io.Valid() && landed == SawDown(seen)
    ensures if due && again then DownEnds(seen, R2_DISABLE_VERIFY_MS, landed) else seen == []
    ensures io.trace == old(io.trace) + if due then [CmDisable(target, again)] + PollSteps(target, seen) else []
  {
    again, landed, seen := false, false, [];
    if due {
      again := io.DisableDevnode(target);
      landed, seen := AwaitDown(io, target, again);
      Reassociate(old(io.trace), [CmDisable(target, again)], PollSteps(target, seen));
    } else {
      NothingYet(io.trace);
    }
  }

  // Bring the radio down and see it down.
  method TryDisable(io: PnpIo, target: nat) returns (landed: bool, ghost d: Disable)
    requires io.Valid()
    modifies io
    ensures io.Valid() && d.last == [] && landed == d.Landed()
    ensures if d.Accepted() then DownEnds(d.first, R2_DISABLE_VERIFY_MS, SawDown(d.first)) else d.first == []
    ensures if d.Retried() && d.again then DownEnds(d.second, R2_DISABLE_VERIFY_MS, SawDown(d.second))
            else d.second == []
    ensures io.trace == old(io.trace) + DisableSteps(target, d)
  {
    var dif, cm := TakeDown(io, target);
    ghost var first, second;
    landed, first := AwaitDown(io, target, dif || cm);
    var again, landedNow;
    again, landedNow, second := Retry(io, target, (dif || cm) && !landed);
    landed := landed || landedNow;
    d := Disable(dif, cm, first, again, second, []);
    TryShape(old(io.trace), target, d);
  }

  lemma TryShape(t: seq<Step>, node: nat, d: Disable)
    requires d.last == []
    ensures t + [Change(node, false, d.dif)] + (if d.dif then [] else [CmDisable(node, d.cm)])
            + PollSteps(node, d.first) + RetrySteps(node, d)
            == t + DisableSteps(node, d)
  {
    var down := TakeDownSteps(node, d);
    Reassociate(t, [Change(node, false, d.dif)], if d.dif then [] else [CmDisable(node, d.cm)]);
    Reassociate(t, down, PollSteps(node, d.first));
    Reassociate(t, down + PollSteps(node, d.first), RetrySteps(node, d));
    NothingYet(down + PollSteps(node, d.first) + RetrySteps(node, d));
  }

  lemma LastLook(t: seq<Step>, node: nat, d: Disable, seen: Sightings)
    requires d.last == []
    ensures t + DisableSteps(node, d) + PollSteps(node, seen) == t + DisableSteps(node, d.(last := seen))
  {
    var head := TakeDownSteps(node, d) + PollSteps(node, d.first) + RetrySteps(node, d);
    NothingYet(head);
    Reassociate(t, head, PollSteps(node, seen));
  }

  /** The disable. On failure the journal is dropped only if the radio is STARTED
      after all. */
  method DisableVerified(io: PnpIo, target: nat) returns (landed: bool, ghost d: Disable, ghost gone: bool)
    requires io.Valid()
    modifies io
    ensures io.Valid() && DisableEnds(d) && landed == d.Landed()
    ensures io.trace == old(io.trace) + DisableSteps(target, d)
                        + (if landed then [] else Tail(Succeeded(d.last), gone, false))
  {
    landed, d := TryDisable(io, target);
    gone := false;
    if landed {
      NothingYet(io.trace);
    } else {
      var up;
      ghost var seen;
      up, seen := LookOnce(io, target);
      LastLook(old(io.trace), target, d, seen);
      d := d.(last := seen);
      gone := Finish(io, up, false);
    }
  }

  // The enable of a radio that was seen down; on failure the journal stays armed.
  method EnableAgain(io: PnpIo, target: nat) returns (ok: bool, ghost rounds: seq<Round>, ghost gone: bool)
    requires io.Valid()
    modifies io
    ensures io.Valid() && RoundsEnd(rounds, R2_ENABLE_VERIFY_MS) && ok == RoundsOk(rounds)
    ensures io.trace == old(io.trace) + EnableSteps(target, rounds) + Tail(ok, gone, false)
  {
    io.Pause(R2_DISABLE_QUIET_MS);
    ok, rounds := EnableDevnodeVerified(io, target, R2_ENABLE_VERIFY_MS);
    Reassociate(old(io.trace), [Sleep(R2_DISABLE_QUIET_MS)], RoundsSteps(target, rounds));
    gone := Finish(io, ok, false);
  }

  // The disable and enable pair.
  method PowerCycle(io: PnpIo, target: nat)
    returns (ok: bool, ghost d: Disable, ghost rounds: seq<Round>, ghost gone: bool)
    requires io.Valid()
    modifies io
    ensures io.Valid() && DisableEnds(d) && ok == (d.Landed() && RoundsOk(rounds))
    ensures if d.Landed() then RoundsEnd(rounds, R2_ENABLE_VERIFY_MS) else rounds == []
    ensures io.trace == old(io.trace) + DisableSteps(target, d) + EnableSteps(target, rounds)
                        + Tail(if d.Landed() then ok else Succeeded(d.last), gone, false)
  {
    rounds := [];
    ok, d, gone := DisableVerified(io, target);
    NothingYet(old(io.trace) + DisableSteps(target, d));
    if ok {
      ok, rounds, gone := EnableAgain(io, target);
    }
  }

  // The cycle after its restart, if pnputil was found.
  predicate Begun(c: Cycle, pnputil: bool) {
    c.armed && c.onDisk && (c.restart.Some? <==> pnputil) && (c.restart.Some? ==> RestartEnds(c.restart.value))
    && c.disable.None? && c.rounds == []
  }

  method TryRestart(io: PnpIo, target: nat, pnputil: bool) returns (result: Option<bool>, ghost c: Cycle)
    requires io.Valid()
    modifies io
    ensures io.Valid() && Begun(c, pnputil) && result == if c.Restarts() then Some(!c.TurnsOff()) else None
    ensures io.trace == old(io.trace) + BodySteps(target, c)
                        + (if c.Restarts() then Tail(c.FindsUp(), c.gone, c.TurnsOff()) else [])
  {
    result := None;
    c := Cycle(true, true, None, None, [], false);
    if pnputil {
      ghost var r, gone;
      result, r, gone := RestartPath(io, target);
      c := Cycle(true, true, Some(r), None, [], gone);
      OnlyRestart(old(io.trace), target, c);
    } else {
      NothingYet(io.trace);
    }
  }

  // The disable and enable pair behind a restart that did not end the cycle.
  method FallBack(io: PnpIo, target: nat, pnputil: bool, ghost begun: Cycle, ghost start: seq<Step>)
    returns (ok: bool, ghost c: Cycle)
    requires io.Valid() && io.trace == start + BodySteps(target, begun)
    requires Begun(begun, pnputil) && !begun.Restarts()
    modifies io
    ensures io.Valid() && c.armed && c.onDisk && LegalCycle(c, pnputil) && ok == c.Ok()
    ensures io.trace == start + BodySteps(target, c) + Tail(c.FindsUp(), c.gone, c.TurnsOff())
  {
    ghost var d, rounds, gone;
    ok, d, rounds, gone := PowerCycle(io, target);
    c := Cycle(true, true, begun.restart, Some(d), rounds, gone);
    AndPowerCycle(start, target, begun, c);
    PairIsLegal(begun, c, pnputil);
  }

  lemma PairIsLegal(begun: Cycle, c: Cycle, pnputil: bool)
    requires Begun(begun, pnputil) && !begun.Restarts() && c.armed && c.onDisk && c.restart == begun.restart
    requires c.disable.Some? && DisableEnds(c.disable.value)
    requires if c.disable.value.Landed() then RoundsEnd(c.rounds, R2_ENABLE_VERIFY_MS) else c.rounds == []
    ensures LegalCycle(c, pnputil) && !c.TurnsOff() && c.Ok() == (c.Landed() && RoundsOk(c.rounds))
    ensures c.FindsUp() == if c.Landed() then RoundsOk(c.rounds) else Succeeded(c.disable.value.last)
  {
  }

  /** `cycle_csr_radio_once` from the armed journal on: restart, else disable and
      enable again. */
  method CycleArmed(io: PnpIo, target: nat, pnputil: bool) returns (ok: bool, ghost c: Cycle)
    requires io.Valid()
    modifies io
    ensures io.Valid() && c.armed && c.onDisk && LegalCycle(c, pnputil) && ok == c.Ok()
    ensures io.trace == old(io.trace) + BodySteps(target, c) + Tail(c.FindsUp(), c.gone, c.TurnsOff())
  {
    var result;
    result, c := TryRestart(io, target, pnputil);
    if result.Some? {
      ok := result.value;
    } else {
      NothingYet(old(io.trace) + BodySteps(target, c));
      ok, c := FallBack(io, target, pnputil, c, old(io.trace));
    }
  }

  lemma OnlyRestart(t: seq<Step>, node: nat, c: Cycle)
    requires c.restart.Some? && c.disable.None? && c.rounds == []
    ensures t + RestartSteps(node, c.restart.value) == t + BodySteps(node, c)
  {
    NothingYet(RestartSteps(node, c.restart.value));
  }

  lemma AndPowerCycle(t: seq<Step>, node: nat, begun: Cycle, c: Cycle)
    requires begun.disable.None? && begun.rounds == [] && c.restart == begun.restart && c.disable.Some?
    ensures t + BodySteps(node, begun) + DisableSteps(node, c.disable.value) + EnableSteps(node, c.rounds)
            == t + BodySteps(node, c)
  {
    var r := if c.restart.Some? then RestartSteps(node, c.restart.value) else [];
    NothingYet(r);
    assert BodySteps(node, begun) == r;
    Reassociate(t, r, DisableSteps(node, c.disable.value));
    Reassociate(t, r + DisableSteps(node, c.disable.value), EnableSteps(node, c.rounds));
  }

  // The first enumerated CSR radio, as the loop finds it.
  method FindTarget(devs: seq<Node>) returns (target: Option<nat>)
    ensures target == FirstCsr(devs)
  {
    target := None;
    var index := 0;
    assert devs[0..] == devs;
    while target.None? && index < |devs|
      invariant 0 <= index <= |devs|
      invariant FirstCsr(devs) == if target.Some? then target else FirstCsr(devs[index..])
      decreases |devs| - index, target.None?
    {
      if devs[index].csr {
        target := Some(devs[index].id);
      }
      assert devs[index..][1..] == devs[index + 1..];
      index := index + 1;
    }
  }

  /** `cycle_csr_radio_once`: it performs exactly one script and reports what that
      script means. `devs` is the enumeration, if it succeeded. */
  method CycleCsrRadioOnce(io: PnpIo, devs: Option<seq<Node>>, pnputil: bool) returns (ok: bool, ghost c: Cycle)
    requires io.Valid()
    modifies io
    ensures io.Valid() && LegalCycle(c, pnputil) && io.trace == old(io.trace) + CallSteps(devs, c)
    ensures ok == (Target(devs).Some? && c.Ok())
    ensures io.world == Replay(old(io.world), CallSteps(devs, c))
    ensures io.safe <==> old(io.safe) && CrashSafe(old(io.world), CallSteps(devs, c))
  {
    ghost var start := io.trace;
    ok, c := false, Cycle(false, false, None, None, [], false);
    NothingYet(start);
    var target: Option<nat> := None;
    if devs.Some? {
      target := FindTarget(devs.value);
    }
    if target.Some? {
      ok, c := CycleTarget(io, target.value, pnputil);
    }
    AuditConcat(io.start, start, CallSteps(devs, c));
  }

  // Arm the journal, or refuse to touch the dongle.
  method CycleTarget(io: PnpIo, target: nat, pnputil: bool) returns (ok: bool, ghost c: Cycle)
    requires io.Valid()
    modifies io
    ensures io.Valid() && LegalCycle(c, pnputil) && ok == c.Ok() && io.trace == old(io.trace) + CycleSteps(target, c)
  {
    var armed := io.JournalArm();
    ghost var onDisk := io.trace[|io.trace| - 1].onDisk;
    if armed {
      ok, c := CycleArmed(io, target, pnputil);
    } else {
      ok, c := false, Cycle(false, onDisk, None, None, [], false);
      NothingYet(io.trace);
    }
    CycleShape(old(io.trace), target, c);
  }

  lemma CycleShape(t: seq<Step>, node: nat, c: Cycle)
    ensures t + [ArmJournal(c.armed, c.onDisk)] + BodySteps(node, c) + Tail(c.FindsUp(), c.gone, c.TurnsOff())
            == t + CycleSteps(node, c)
  {
    Reassociate(t, [ArmJournal(c.armed, c.onDisk)], BodySteps(node, c));
    Reassociate(t, BeforeTail(node, c), Tail(c.FindsUp(), c.gone, c.TurnsOff()));
  }
}
