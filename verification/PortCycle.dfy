/** The hub port cycle: `cycle_csr_hub_port_once` of `pnp/hub.rs`, the third user of
    the journal. It cuts the power of a port and disables nothing, and it judges its
    success by re-enumeration. */
module PortCycle {
  import opened Config
  import opened Journal

  /** One call: whether a CSR radio was found, how the arming and the walk over the hub
      ports ended, the looks for the radio afterwards, and whether removing the journal
      file worked. */
  datatype Port = Port(present: bool, armed: bool, onDisk: bool, cycled: bool, looks: seq<bool>, gone: bool) {
    predicate CameBack() {
      looks != [] && looks[|looks| - 1]
    }

    /** A port cycle that did nothing, or whose dongle came back, removes the journal. */
    predicate Removes() {
      present && armed && (!cycled || CameBack())
    }
  }

  /** What a wait may have seen: it stops at the first look that finds a radio, or at
      the first one after the time is up. */
  predicate LooksEnd(looks: seq<bool>) {
    looks != [] && (forall i :: 0 <= i < |looks| - 1 ==> !looks[i])
    && (|looks| > 1 ==> (|looks| - 2) * R4_REENUM_POLL_MS < R4_REENUM_VERIFY_MS)
    && (!looks[|looks| - 1] ==> (|looks| - 1) * R4_REENUM_POLL_MS >= R4_REENUM_VERIFY_MS)
  }

  /** The wait for the dongle: up to the first look that finds it, and 41 looks, a
      quarter of a second apart, if none does. */
  lemma LooksTold(looks: seq<bool>)
    requires LooksEnd(looks)
    ensures 1 <= |looks| <= 41 && forall i :: 0 <= i < |looks| - 1 ==> !looks[i]
    ensures !looks[|looks| - 1] ==> |looks| == 41
  {
  }

  predicate LegalPort(p: Port) {
    (p.armed ==> p.onDisk) && if p.present && p.armed && p.cycled then LooksEnd(p.looks) else p.looks == []
  }

  function LookSteps(looks: seq<bool>): (t: seq<Step>)
    ensures |t| >= |looks|
  {
    if looks == [] then []
    else if |looks| == 1 then [FindRadio(looks[0])]
    else LookSteps(looks[..|looks| - 1]) + [Sleep(R4_REENUM_POLL_MS)] + [FindRadio(looks[|looks| - 1])]
  }

  function WalkSteps(p: Port): seq<Step> {
    if p.present && p.armed then [CyclePort(p.cycled)] + LookSteps(p.looks) else []
  }

  function ArmSteps(p: Port): seq<Step> {
    if p.present then [ArmJournal(p.armed, p.onDisk)] else []
  }

  // The port cycle up to its decision about the journal.
  function BeforeEnd(p: Port): seq<Step> {
    [FindRadio(p.present)] + ArmSteps(p) + WalkSteps(p)
  }

  function EndSteps(p: Port): seq<Step> {
    if p.Removes() then [DisarmJournal(p.gone)] else []
  }

  function PortSteps(p: Port): seq<Step> {
    BeforeEnd(p) + EndSteps(p)
  }

  // -------------------------------------------------------------------------
  // What a script does to the world
  // -------------------------------------------------------------------------

  lemma {:induction false} LooksLead(w: World, looks: seq<bool>)
    ensures Leads(w, LookSteps(looks), w)
    decreases |looks|
  {
    if looks != [] {
      var last := FindRadio(looks[|looks| - 1]);
      One(w, last);
      if |looks| > 1 {
        var rest := LookSteps(looks[..|looks| - 1]);
        LooksLead(w, looks[..|looks| - 1]);
        One(w, Sleep(R4_REENUM_POLL_MS));
        LeadsConcat(w, rest, w, [Sleep(R4_REENUM_POLL_MS)], w);
        LeadsConcat(w, rest + [Sleep(R4_REENUM_POLL_MS)], w, [last], w);
      }
    }
  }

  lemma WalkLeads(w: World, p: Port)
    ensures Leads(w, WalkSteps(p), w)
  {
    One(w, CyclePort(p.cycled));
    LooksLead(w, p.looks);
    LeadsConcat(w, [CyclePort(p.cycled)], w, LookSteps(p.looks), w);
  }

  /** Up to its decision a port cycle changes no radio's risk and keeps the journal,
      which is on disk from the arming on. */
  lemma BeforeEndIsSafe(w: World, p: Port)
    requires Safe(w) && LegalPort(p)
    ensures var y := Replay(w, BeforeEnd(p));
            CrashSafe(w, BeforeEnd(p)) && y.atRisk == w.atRisk
            && (y.journal <==> w.journal || (p.present && p.onDisk))
  {
    var find, arm := FindRadio(p.present), ArmJournal(p.armed, p.onDisk);
    var x := if p.present then Apply(w, arm) else w;
    WalkLeads(x, p);
    QuietIsCrashSafe(x, WalkSteps(p), x);
    if p.present {
      ArmFirst(w, arm, WalkSteps(p));
      assert BeforeEnd(p) == [find] + ([arm] + WalkSteps(p));
      ArmFirst(w, find, [arm] + WalkSteps(p));
    } else {
      assert BeforeEnd(p) == [find] + WalkSteps(p);
      ArmFirst(w, find, WalkSteps(p));
    }
  }

  /** One script: it is crash safe exactly when it keeps the journal, or nothing was
      at risk. */
  lemma PortSafe(w: World, p: Port)
    requires Safe(w) && LegalPort(p)
    ensures CrashSafe(w, BeforeEnd(p)) && Replay(w, PortSteps(p)).atRisk == w.atRisk
    ensures CrashSafe(w, PortSteps(p)) <==> !(p.Removes() && p.gone) || w.atRisk == {}
    ensures Replay(w, PortSteps(p)).journal
            <==> (w.journal || (p.present && p.onDisk)) && !(p.Removes() && p.gone)
  {
    BeforeEndIsSafe(w, p);
    if p.Removes() {
      CrashSafeSnoc(w, BeforeEnd(p), DisarmJournal(p.gone));
    } else {
      NothingYet(BeforeEnd(p));
    }
  }

  /** A dongle that does not come back after its port was cycled leaves the journal on
      disk. */
  lemma AbsentDongleIsCovered(w: World, p: Port)
    requires Safe(w) && LegalPort(p) && p.present && p.armed && p.cycled && !p.CameBack()
    ensures Replay(w, PortSteps(p)).journal
  {
    PortSafe(w, p);
  }

  /** Every script that a call may perform is crash safe; `present` is what the search
      for a CSR radio says. */
  ghost predicate AllPortsSafe(w: World, present: bool) {
    forall p: Port | LegalPort(p) && p.present == present :: CrashSafe(w, PortSteps(p))
  }

  /** The dongle is on no hub port that the walk reaches. */
  const UNLOCATED: Port := Port(true, true, true, false, [], true)

  /** How a radio is forgotten: the port cycle touches nothing, and removes the journal
      that was there before it. */
  lemma IdlePortForgets(w: World)
    requires Safe(w) && w.atRisk != {}
    ensures LegalPort(UNLOCATED) && CrashSafe(w, BeforeEnd(UNLOCATED)) && !CrashSafe(w, PortSteps(UNLOCATED))
    ensures w.journal && CyclePort(true) !in PortSteps(UNLOCATED)
  {
    PortSafe(w, UNLOCATED);
  }

  /** EXACTLY WHEN A PORT CYCLE IS CRASH SAFE, whatever the system answers: no CSR radio
      is found, or nothing is at risk -- not even the dongle itself. */
  lemma AllPortsSafeIff(w: World, present: bool)
    requires Safe(w)
    ensures AllPortsSafe(w, present) <==> !present || w.atRisk == {}
  {
    if !present || w.atRisk == {} {
      forall p: Port | LegalPort(p) && p.present == present ensures CrashSafe(w, PortSteps(p)) {
        PortSafe(w, p);
      }
    } else {
      IdlePortForgets(w);
    }
  }

  // -------------------------------------------------------------------------
  // The code performs a script
  // -------------------------------------------------------------------------

  // The looks so far, none of which found a radio.
  predicate NotBackYet(looks: seq<bool>, waited: int) {
    waited == |looks| * R4_REENUM_POLL_MS && (forall i :: 0 <= i < |looks| ==> !looks[i])
    && (looks != [] ==> (|looks| - 1) * R4_REENUM_POLL_MS < R4_REENUM_VERIFY_MS)
  }

  lemma BackOrOn(looks: seq<bool>, found: bool, waited: int)
    requires NotBackYet(looks, waited)
    ensures if found || waited >= R4_REENUM_VERIFY_MS then LooksEnd(looks + [found])
            else NotBackYet(looks + [found], waited + R4_REENUM_POLL_MS)
  {
  }

  // The steps of the wait so far, with the pause in front of the next look.
  function Looking(looks: seq<bool>): seq<Step> {
    if looks == [] then [] else LookSteps(looks) + [Sleep(R4_REENUM_POLL_MS)]
  }

  lemma LookSnoc(t: seq<Step>, looks: seq<bool>, found: bool)
    ensures t + Looking(looks) + [FindRadio(found)] == t + LookSteps(looks + [found])
  {
    assert (looks + [found])[..|looks|] == looks;
    Reassociate(t, Looking(looks), [FindRadio(found)]);
  }

  method AwaitReturn(io: PnpIo) returns (back: bool, ghost looks: seq<bool>)
    requires io.Valid()
    modifies io
    ensures io.Valid() && LooksEnd(looks) && back == looks[|looks| - 1]
    ensures io.trace == old(io.trace) + LookSteps(looks)
  {
    var waited := 0;
    looks := [];
    NothingYet(io.trace);
    while true
      invariant io.Valid() && io.trace == old(io.trace) + Looking(looks) && NotBackYet(looks, waited)
      decreases R4_REENUM_VERIFY_MS + R4_REENUM_POLL_MS - waited
    {
      back := io.RadioPresent();
      LookSnoc(old(io.trace), looks, back);
      BackOrOn(looks, back, waited);
      looks := looks + [back];
      if back || waited >= R4_REENUM_VERIFY_MS { return; }
      io.Pause(R4_REENUM_POLL_MS);
      Reassociate(old(io.trace), LookSteps(looks), [Sleep(R4_REENUM_POLL_MS)]);
      waited := waited + R4_REENUM_POLL_MS;
    }
  }

  // The walk over the hub ports, and the wait for the dongle if a port was cycled.
  method Walk(io: PnpIo) returns (cycled: bool, back: bool, ghost looks: seq<bool>)
    requires io.Valid()
    modifies io
    ensures io.Valid() && io.trace == old(io.trace) + ([CyclePort(cycled)] + LookSteps(looks))
    ensures if cycled then LooksEnd(looks) && back == looks[|looks| - 1] else looks == [] && !back
  {
    back, looks := false, [];
    cycled := io.WalkHubPorts();
    if cycled {
      back, looks := AwaitReturn(io);
      Reassociate(old(io.trace), [CyclePort(cycled)], LookSteps(looks));
    } else {
      NothingYet([CyclePort(cycled)]);
    }
  }

  // From the armed journal on.
  method CycleArmed(io: PnpIo) returns (ok: bool, ghost p: Port)
    requires io.Valid()
    modifies io
    ensures io.Valid() && p.present && p.armed && p.onDisk && LegalPort(p) && ok == p.CameBack()
    ensures io.trace == old(io.trace) + WalkSteps(p) + EndSteps(p)
  {
    var cycled;
    ghost var looks;
    cycled, ok, looks := Walk(io);
    p := Port(true, true, true, cycled, looks, false);
    if !cycled || ok {
      io.JournalDisarm();
      p := p.(gone := io.trace[|io.trace| - 1].gone);
    } else {
      NothingYet(io.trace);
    }
  }

  lemma PortShape(t: seq<Step>, p: Port)
    ensures t + [FindRadio(p.present)] + ArmSteps(p) + WalkSteps(p) + EndSteps(p) == t + PortSteps(p)
    ensures !p.present ==> t + [FindRadio(p.present)] == t + PortSteps(p)
    ensures !p.armed ==> t + [FindRadio(p.present)] + ArmSteps(p) == t + PortSteps(p)
  {
    Reassociate(t, [FindRadio(p.present)], ArmSteps(p));
    Reassociate(t, [FindRadio(p.present)] + ArmSteps(p), WalkSteps(p));
    Reassociate(t, BeforeEnd(p), EndSteps(p));
    NothingYet([FindRadio(p.present)] + ArmSteps(p));
    NothingYet([FindRadio(p.present)]);
  }

  /** `cycle_csr_hub_port_once`: it performs exactly one script, and succeeds exactly if
      a cycled dongle came back. */
  method CycleCsrHubPortOnce(io: PnpIo) returns (ok: bool, ghost p: Port)
    requires io.Valid()
    modifies io
    ensures io.Valid() && LegalPort(p) && ok == p.CameBack() && io.trace == old(io.trace) + PortSteps(p)
    ensures io.world == Replay(old(io.world), PortSteps(p))
    ensures io.safe <==> old(io.safe) && CrashSafe(old(io.world), PortSteps(p))
  {
    ghost var start := io.trace;
    var present := io.RadioPresent();
    ok, p := false, Port(present, false, false, false, [], false);
    if present {
      var armed := io.JournalArm();
      p := p.(armed := armed, onDisk := io.trace[|io.trace| - 1].onDisk);
      if armed {
        ok, p := CycleArmed(io);
      }
    }
    PortShape(start, p);
    AuditConcat(io.start, start, PortSteps(p));
  }
}
