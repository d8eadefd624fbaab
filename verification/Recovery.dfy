/** The repair pass: `recover_disabled_radio` of `pnp/recovery.rs`.

    The scripts of a pass are written out for every answer of the system; the
    method performs one of them, and the theorems speak about all of them. */
module Recovery {
  import opened Config
  import opened Devnode
  import opened Journal
  import opened Wrappers

  // -------------------------------------------------------------------------
  // The scripts
  // -------------------------------------------------------------------------

  /** The pnputil verbs, each followed by a wait. */
  function VerbSteps(node: nat, waits: seq<Sightings>): seq<Step> {
    if waits == [] then []
    else
      VerbSteps(node, waits[..|waits| - 1]) + [RepairVerb(node)] + PollSteps(node, waits[|waits| - 1])
  }

  predicate VerbsOk(waits: seq<Sightings>) {
    waits != [] && Succeeded(waits[|waits| - 1])
  }

  /** Both verbs are tried, unless the first one does it. */
  predicate VerbsEnd(waits: seq<Sightings>) {
    1 <= |waits| <= 2 && (!VerbsOk(waits) ==> |waits| == 2)
    && (forall i :: 0 <= i < |waits| ==> PollEnds(waits[i], RECOVERY_VERIFY_MS, Succeeded(waits[i])))
    && forall i :: 0 <= i < |waits| - 1 ==> !Succeeded(waits[i])
  }

  /** What one pass did for one radio: its first status, then the rounds of the
      verified enable and the waits behind the pnputil verbs, if it needed them. */
  datatype Repair = Repair(first: Option<Status>, rounds: seq<Round>, verbs: seq<Sightings>)

  /** `devnode_needs_repair`: a status that cannot be read is no reason to act. */
  predicate Needed(x: Repair, owns: bool) {
    x.first.Some? && RadioNeedsRepair(x.first.value, owns)
  }

  predicate BroughtBack(x: Repair) {
    RoundsOk(x.rounds) || VerbsOk(x.verbs)
  }

  function RepairSteps(node: nat, x: Repair): seq<Step> {
    [Observe(node, x.first)] + RoundsSteps(node, x.rounds) + VerbSteps(node, x.verbs)
  }

  predicate LegalRepair(x: Repair, owns: bool, pnputil: bool) {
    if !Needed(x, owns) then x.rounds == [] && x.verbs == []
    else
      RoundsEnd(x.rounds, R3_VERIFY_MS)
      && if RoundsOk(x.rounds) || !pnputil then x.verbs == [] else VerbsEnd(x.verbs)
  }

  /** The pass may count this radio as healthy. */
  predicate Settled(x: Repair, owns: bool) {
    Needed(x, owns) ==> BroughtBack(x)
  }

  /** The CSR radios of an enumeration. */
  function Radios(devs: seq<Node>): seq<nat> {
    if devs == [] then []
    else Radios(devs[..|devs| - 1]) + (if devs[|devs| - 1].csr then [devs[|devs| - 1].id] else [])
  }

  /** A call: the enumeration, if it succeeded, whether the process is elevated,
      whether this is `--recover`, and whether pnputil was found. */
  datatype Request = Request(devs: Option<seq<Node>>, admin: bool, forced: bool, pnputil: bool) {
    /** The radios the pass gets to see. */
    function Listed(): seq<nat> {
      if admin && devs.Some? then Radios(devs.value) else []
    }
  }

  /** One pass: what the journal query said, what was done for each listed radio,
      and whether removing the journal file worked. */
  datatype Pass = Pass(journal: bool, repairs: seq<Repair>, gone: bool)

  predicate Owns(q: Request, p: Pass) {
    q.forced || p.journal
  }

  predicate AllLegal(xs: seq<Repair>, owns: bool, pnputil: bool) {
    forall i :: 0 <= i < |xs| ==> LegalRepair(xs[i], owns, pnputil)
  }

  predicate LegalPass(q: Request, p: Pass) {
    |p.repairs| == |q.Listed()| && AllLegal(p.repairs, Owns(q, p), q.pnputil)
  }

  predicate AllSettled(xs: seq<Repair>, owns: bool) {
    forall i :: 0 <= i < |xs| ==> Settled(xs[i], owns)
  }

  /** `radio_recovery_done`. */
  predicate Clears(q: Request, p: Pass) {
    q.Listed() != [] && AllSettled(p.repairs, Owns(q, p))
  }

  function AllSteps(ids: seq<nat>, xs: seq<Repair>): seq<Step>
    requires |ids| == |xs|
  {
    if ids == [] then []
    else AllSteps(ids[..|ids| - 1], xs[..|xs| - 1]) + RepairSteps(ids[|ids| - 1], xs[|xs| - 1])
  }

  function Opening(q: Request, p: Pass): seq<Step> {
    if q.forced then [] else [ReadJournal(p.journal)]
  }

  function Closing(q: Request, p: Pass): seq<Step> {
    if Clears(q, p) then [DisarmJournal(p.gone)] else []
  }

  function PassSteps(q: Request, p: Pass): seq<Step>
    requires LegalPass(q, p)
  {
    Opening(q, p) + AllSteps(q.Listed(), p.repairs) + Closing(q, p)
  }

  datatype RepairOutcome = RepairOutcome(repaired: bool, present: nat)

  predicate AnyNeeded(xs: seq<Repair>, owns: bool) {
    exists i :: 0 <= i < |xs| && Needed(xs[i], owns)
  }

  /** What the ladder is told. */
  function Outcome(q: Request, p: Pass): RepairOutcome {
    RepairOutcome(Clears(q, p) && AnyNeeded(p.repairs, Owns(q, p)), |q.Listed()|)
  }

  // -------------------------------------------------------------------------
  // The code performs a script
  // -------------------------------------------------------------------------

  lemma VerbsShape(t: seq<Step>, node: nat, waits: seq<Sightings>, seen: Sightings)
    ensures t + VerbSteps(node, waits) + [RepairVerb(node)] + PollSteps(node, seen)
            == t + VerbSteps(node, waits + [seen])
  {
    assert (waits + [seen])[..|waits|] == waits;
    var head := VerbSteps(node, waits);
    Reassociate(t, head, [RepairVerb(node)]);
    Reassociate(t, head + [RepairVerb(node)], PollSteps(node, seen));
  }

  // One more verb, and the wait behind it.
  method NextVerb(io: PnpIo, node: nat, ghost waits: seq<Sightings>, ghost start: seq<Step>)
    returns (ok: bool, ghost seen: Sightings)
    requires io.Valid() && io.trace == start + VerbSteps(node, waits)
    modifies io
    ensures io.Valid() && PollEnds(seen, RECOVERY_VERIFY_MS, ok) && ok == Succeeded(seen)
    ensures io.trace == start + VerbSteps(node, waits + [seen])
  {
    io.PnputilRepair(node);
    ok, seen := WaitDevnodeStarted(io, node, RECOVERY_VERIFY_MS);
    VerbsShape(start, node, waits, seen);
  }

  /** The two pnputil verbs, tried when the verified enable did not work. They
      are only ever issued to a radio that was not found STARTED. */
  method PnputilVerbs(io: PnpIo, node: nat) returns (ok: bool, ghost waits: seq<Sightings>)
    requires io.Valid()
    modifies io
    ensures io.Valid() && VerbsEnd(waits) && ok == VerbsOk(waits)
    ensures io.trace == old(io.trace) + VerbSteps(node, waits)
  {
    ok := false;
    waits := [];
    var verb := 0;
    while verb < 2 && !ok
      invariant io.Valid() && verb == |waits| <= 2 && ok == VerbsOk(waits)
      invariant io.trace == old(io.trace) + VerbSteps(node, waits)
      invariant forall i :: 0 <= i < |waits| ==> PollEnds(waits[i], RECOVERY_VERIFY_MS, Succeeded(waits[i]))
      invariant forall i :: 0 <= i < |waits| - 1 ==> !Succeeded(waits[i])
    {
      ghost var seen;
      ok, seen := NextVerb(io, node, waits, old(io.trace));
      waits := waits + [seen];
      verb := verb + 1;
    }
  }

  /** One radio of the repair pass (`devnode_needs_repair` and what follows). */
  method RepairRadio(io: PnpIo, node: nat, owns: bool, pnputil: bool)
    returns (needed: bool, ok: bool, ghost x: Repair)
    requires io.Valid()
    modifies io
    ensures io.Valid() && LegalRepair(x, owns, pnputil) && io.trace == old(io.trace) + RepairSteps(node, x)
    ensures needed == Needed(x, owns) && (needed ==> ok == BroughtBack(x))
  {
    var s := io.DevnodeStatus(node);
    needed := s.Some? && RadioNeedsRepair(s.value, owns);
    ok := true;
    ghost var rounds, verbs := [], [];
    if needed {
      ok, rounds := EnableDevnodeVerified(io, node, R3_VERIFY_MS);
      if !ok && pnputil {
        ok, verbs := PnputilVerbs(io, node);
      }
    }
    x := Repair(s, rounds, verbs);
    RepairShape(old(io.trace), node, x);
  }

  lemma RepairShape(t: seq<Step>, node: nat, x: Repair)
    ensures t + [Observe(node, x.first)] + RoundsSteps(node, x.rounds) + VerbSteps(node, x.verbs)
            == t + RepairSteps(node, x)
    ensures x.verbs == [] ==> t + [Observe(node, x.first)] + RoundsSteps(node, x.rounds) == t + RepairSteps(node, x)
    ensures x.verbs == [] && x.rounds == [] ==> t + [Observe(node, x.first)] == t + RepairSteps(node, x)
  {
    Reassociate(t, [Observe(node, x.first)], RoundsSteps(node, x.rounds));
    Reassociate(t, [Observe(node, x.first)] + RoundsSteps(node, x.rounds), VerbSteps(node, x.verbs));
  }

  lemma AllShape(t: seq<Step>, ids: seq<nat>, xs: seq<Repair>, id: nat, x: Repair)
    requires |ids| == |xs|
    ensures t + AllSteps(ids, xs) + RepairSteps(id, x) == t + AllSteps(ids + [id], xs + [x])
  {
    assert (ids + [id])[..|ids|] == ids && (xs + [x])[..|xs|] == xs;
    Reassociate(t, AllSteps(ids, xs), RepairSteps(id, x));
  }

  lemma RadiosSnoc(devs: seq<Node>, index: nat)
    requires index < |devs|
    ensures Radios(devs[..index + 1]) == Radios(devs[..index]) + (if devs[index].csr then [devs[index].id] else [])
  {
    assert devs[..index + 1][..index] == devs[..index];
  }

  // The counters of the repair loop, read off what was done so far.
  ghost predicate Counted(xs: seq<Repair>, owns: bool, repaired: nat, stillDisabled: nat) {
    (stillDisabled == 0 <==> AllSettled(xs, owns))
    && (repaired + stillDisabled > 0 <==> AnyNeeded(xs, owns))
  }

  /** What the loop knows: what it did to the radios so far, and its counters. */
  ghost predicate Done(io: PnpIo, start: seq<Step>, ids: seq<nat>, xs: seq<Repair>, owns: bool, pnputil: bool,
                       present: nat, repaired: nat, stillDisabled: nat)
    reads io
  {
    io.Valid() && present == |ids| == |xs| && io.trace == start + AllSteps(ids, xs)
    && AllLegal(xs, owns, pnputil) && Counted(xs, owns, repaired, stillDisabled)
  }

  // One more listed radio, with its effect on the counters.
  method RepairNext(io: PnpIo, id: nat, owns: bool, pnputil: bool, present: nat, repaired: nat, stillDisabled: nat,
                    ghost ids: seq<nat>, ghost xs: seq<Repair>, ghost start: seq<Step>)
    returns (repairedNow: nat, stillNow: nat, ghost x: Repair)
    requires Done(io, start, ids, xs, owns, pnputil, present, repaired, stillDisabled)
    modifies io
    ensures Done(io, start, ids + [id], xs + [x], owns, pnputil, present + 1, repairedNow, stillNow)
  {
    var needed, ok;
    needed, ok, x := RepairRadio(io, id, owns, pnputil);
    AllShape(start, ids, xs, id, x);
    CountedSnoc(xs, x, owns, repaired, stillDisabled);
    repairedNow, stillNow := repaired, stillDisabled;
    if needed && ok {
      repairedNow := repaired + 1;
    } else if needed {
      stillNow := stillDisabled + 1;
    }
  }

  lemma NoneDone(io: PnpIo, start: seq<Step>, owns: bool, pnputil: bool)
    requires io.Valid() && io.trace == start
    ensures Done(io, start, [], [], owns, pnputil, 0, 0, 0)
  {
    assert start + [] == start;
  }

  /** The repair loop over the enumeration. */
  method RepairAll(io: PnpIo, devs: seq<Node>, owns: bool, pnputil: bool)
    returns (present: nat, repaired: nat, stillDisabled: nat, ghost xs: seq<Repair>)
    requires io.Valid()
    modifies io
    ensures Done(io, old(io.trace), Radios(devs), xs, owns, pnputil, present, repaired, stillDisabled)
  {
    present, repaired, stillDisabled, xs := 0, 0, 0, [];
    NoneDone(io, old(io.trace), owns, pnputil);
    var index := 0;
    while index < |devs|
      invariant index <= |devs|
      invariant Done(io, old(io.trace), Radios(devs[..index]), xs, owns, pnputil, present, repaired, stillDisabled)
    {
      ghost var ids := Radios(devs[..index]);
      RadiosSnoc(devs, index);
      if devs[index].csr {
        ghost var x;
        repaired, stillDisabled, x := RepairNext(io, devs[index].id, owns, pnputil, present, repaired,
                                                 stillDisabled, ids, xs, old(io.trace));
        present, xs := present + 1, xs + [x];
      } else {
        assert ids + [] == ids;
      }
      index := index + 1;
    }
    assert devs[..|devs|] == devs;
  }

  lemma CountedSnoc(xs: seq<Repair>, x: Repair, owns: bool, repaired: nat, stillDisabled: nat)
    requires Counted(xs, owns, repaired, stillDisabled)
    ensures !Needed(x, owns) ==> Counted(xs + [x], owns, repaired, stillDisabled)
    ensures Needed(x, owns) && BroughtBack(x) ==> Counted(xs + [x], owns, repaired + 1, stillDisabled)
    ensures Needed(x, owns) && !BroughtBack(x) ==> Counted(xs + [x], owns, repaired, stillDisabled + 1)
  {
    var ys := xs + [x];
    assert ys[|xs|] == x && forall i :: 0 <= i < |xs| ==> ys[i] == xs[i];
  }

  // -------------------------------------------------------------------------
  // What a script does to the world
  // -------------------------------------------------------------------------

  lemma {:induction false} VerbsLeads(w: World, node: nat, waits: seq<Sightings>)
    requires forall i :: 0 <= i < |waits| ==> PollEnds(waits[i], RECOVERY_VERIFY_MS, Succeeded(waits[i]))
    requires forall i :: 0 <= i < |waits| - 1 ==> !Succeeded(waits[i])
    ensures Leads(w, VerbSteps(node, waits), Without(w, node, VerbsOk(waits)))
    decreases |waits|
  {
    if waits != [] {
      var rest, seen := waits[..|waits| - 1], waits[|waits| - 1];
      VerbsLeads(w, node, rest);
      One(w, RepairVerb(node));
      PollLeads(w, node, seen);
      LeadsConcat(w, VerbSteps(node, rest), w, [RepairVerb(node)], w);
      LeadsConcat(w, VerbSteps(node, rest) + [RepairVerb(node)], w, PollSteps(node, seen),
                  Without(w, node, Succeeded(seen)));
    }
  }

  /** The radio was observed STARTED in this pass. */
  predicate SeenStarted(x: Repair) {
    Up(x.first) || BroughtBack(x)
  }

  lemma RepairLeads(w: World, node: nat, x: Repair, owns: bool, pnputil: bool)
    requires LegalRepair(x, owns, pnputil)
    ensures Leads(w, RepairSteps(node, x), Without(w, node, SeenStarted(x)))
  {
    var w1 := Without(w, node, Up(x.first));
    var w2 := Without(w1, node, RoundsOk(x.rounds));
    One(w, Observe(node, x.first));
    RoundsLeads(w1, node, x.rounds, R3_VERIFY_MS);
    LeadsConcat(w, [Observe(node, x.first)], w1, RoundsSteps(node, x.rounds), w2);
    VerbsLeads(w2, node, x.verbs);
    LeadsConcat(w, [Observe(node, x.first)] + RoundsSteps(node, x.rounds), w2, VerbSteps(node, x.verbs),
                Without(w2, node, VerbsOk(x.verbs)));
    assert Without(w2, node, VerbsOk(x.verbs)) == Without(w, node, SeenStarted(x));
  }

  /** The listed radios that were observed STARTED. */
  function SeenAmong(ids: seq<nat>, xs: seq<Repair>): set<nat>
    requires |ids| == |xs|
  {
    set i | 0 <= i < |ids| && SeenStarted(xs[i]) :: ids[i]
  }

  lemma SeenAmongSnoc(ids: seq<nat>, xs: seq<Repair>)
    requires |ids| == |xs| > 0
    ensures SeenAmong(ids, xs)
            == SeenAmong(ids[..|ids| - 1], xs[..|xs| - 1])
               + (if SeenStarted(xs[|xs| - 1]) then {ids[|ids| - 1]} else {})
  {
    var n := |ids| - 1;
    forall id ensures id in SeenAmong(ids, xs)
                <==> id in SeenAmong(ids[..n], xs[..n]) || (SeenStarted(xs[n]) && id == ids[n])
    {
      if id in SeenAmong(ids, xs) {
        var i :| 0 <= i <= n && SeenStarted(xs[i]) && ids[i] == id;
        assert i < n ==> ids[..n][i] == id && xs[..n][i] == xs[i];
      }
      if id in SeenAmong(ids[..n], xs[..n]) {
        var i :| 0 <= i < n && SeenStarted(xs[..n][i]) && ids[..n][i] == id;
        assert ids[i] == id && xs[i] == xs[..n][i];
      }
    }
  }

  /** Up to its last step a pass takes nothing down, and exactly the radios it
      observed STARTED stop being at risk. */
  lemma {:induction false} SeenIsSafe(w: World, ids: seq<nat>, xs: seq<Repair>, owns: bool, pnputil: bool)
    requires |ids| == |xs| && AllLegal(xs, owns, pnputil)
    ensures Leads(w, AllSteps(ids, xs), w.(atRisk := w.atRisk - SeenAmong(ids, xs)))
    decreases |ids|
  {
    if ids == [] {
      assert w.atRisk - SeenAmong(ids, xs) == w.atRisk;
    } else {
      var n := |ids| - 1;
      var x := w.(atRisk := w.atRisk - SeenAmong(ids[..n], xs[..n]));
      SeenIsSafe(w, ids[..n], xs[..n], owns, pnputil);
      RepairLeads(x, ids[n], xs[n], owns, pnputil);
      LeadsConcat(w, AllSteps(ids[..n], xs[..n]), x, RepairSteps(ids[n], xs[n]),
                  Without(x, ids[n], SeenStarted(xs[n])));
      SeenAmongSnoc(ids, xs);
      assert Without(x, ids[n], SeenStarted(xs[n])).atRisk == w.atRisk - SeenAmong(ids, xs);
    }
  }

  // The pass up to its decision about the journal.
  function BeforeClosing(q: Request, p: Pass): seq<Step>
    requires LegalPass(q, p)
  {
    Opening(q, p) + AllSteps(q.Listed(), p.repairs)
  }

  // The world before that decision.
  function Repaired(w: World, q: Request, p: Pass): World
    requires LegalPass(q, p)
  {
    w.(atRisk := w.atRisk - SeenAmong(q.Listed(), p.repairs))
  }

  lemma BeforeClosingLeads(w: World, q: Request, p: Pass)
    requires LegalPass(q, p)
    ensures Leads(w, BeforeClosing(q, p), Repaired(w, q, p))
  {
    if !q.forced {
      One(w, ReadJournal(p.journal));
    }
    assert Leads(w, Opening(q, p), w);
    SeenIsSafe(w, q.Listed(), p.repairs, Owns(q, p), q.pnputil);
    LeadsConcat(w, Opening(q, p), w, AllSteps(q.Listed(), p.repairs), Repaired(w, q, p));
  }

  lemma NothingLeft(a: set<nat>, b: set<nat>)
    ensures a - b == {} <==> a <= b
  {
    if a - b == {} {
      forall n | n in a ensures n in b {
        assert n !in a - b;
      }
    }
  }

  // The last step, if there is one.
  lemma Closed(w: World, q: Request, p: Pass)
    requires LegalPass(q, p)
    ensures var y := Replay(w, BeforeClosing(q, p));
            Replay(w, PassSteps(q, p)) == (if Clears(q, p) then Apply(y, DisarmJournal(p.gone)) else y)
            && (CrashSafe(w, PassSteps(q, p))
                <==> CrashSafe(w, BeforeClosing(q, p)) && Safe(Replay(w, PassSteps(q, p))))
  {
    if Clears(q, p) {
      CrashSafeSnoc(w, BeforeClosing(q, p), DisarmJournal(p.gone));
    } else {
      NothingYet(BeforeClosing(q, p));
    }
  }

  /** One script: it is crash safe exactly when it keeps the journal, or has
      observed every radio at risk STARTED. */
  lemma PassSafe(w: World, q: Request, p: Pass)
    requires Safe(w) && LegalPass(q, p)
    ensures CrashSafe(w, BeforeClosing(q, p))
    ensures CrashSafe(w, PassSteps(q, p))
            <==> !(Clears(q, p) && p.gone) || w.atRisk <= SeenAmong(q.Listed(), p.repairs)
  {
    BeforeClosingLeads(w, q, p);
    QuietIsCrashSafe(w, BeforeClosing(q, p), Repaired(w, q, p));
    NothingLeft(w.atRisk, SeenAmong(q.Listed(), p.repairs));
    Closed(w, q, p);
  }

  lemma PassJournal(w: World, q: Request, p: Pass)
    requires LegalPass(q, p)
    ensures Replay(w, PassSteps(q, p)).journal == (w.journal && !(Clears(q, p) && p.gone))
  {
    BeforeClosingLeads(w, q, p);
    Closed(w, q, p);
  }

  // -------------------------------------------------------------------------
  // The pass
  // -------------------------------------------------------------------------

  lemma PassShape(t: seq<Step>, q: Request, p: Pass)
    requires LegalPass(q, p)
    ensures t + Opening(q, p) + AllSteps(q.Listed(), p.repairs) + Closing(q, p) == t + PassSteps(q, p)
  {
    Reassociate(t, Opening(q, p), AllSteps(q.Listed(), p.repairs));
    Reassociate(t, BeforeClosing(q, p), Closing(q, p));
  }

  /** `journal_disarm`, if the pass has nothing left to do. */
  method Conclude(io: PnpIo, done: bool) returns (ghost gone: bool)
    requires io.Valid()
    modifies io
    ensures io.Valid() && io.trace == old(io.trace) + (if done then [DisarmJournal(gone)] else [])
  {
    gone := false;
    if done {
      io.JournalDisarm();
      gone := io.trace[|io.trace| - 1].gone;
    }
  }

  /** Is a disable ours to undo? Unless asked for, only the journal can tell. */
  method ReadOwnership(io: PnpIo, q: Request) returns (owns: bool, ghost journal: bool)
    requires io.Valid()
    modifies io
    ensures io.Valid() && owns == (q.forced || journal) && (journal ==> old(io.world.journal))
    ensures io.trace == old(io.trace) + (if q.forced then [] else [ReadJournal(journal)])
  {
    owns, journal := q.forced, false;
    if owns {
      NothingYet(io.trace);
    } else {
      owns := io.JournalPresent();
      journal := owns;
    }
  }

  // Reading the journal, and the repair loop if it is reached.
  method RepairListed(io: PnpIo, q: Request)
    returns (present: nat, repaired: nat, stillDisabled: nat, ghost p: Pass)
    requires io.Valid()
    modifies io
    ensures LegalPass(q, p) && (p.journal ==> old(io.world.journal))
    ensures Done(io, old(io.trace) + Opening(q, p), q.Listed(), p.repairs, Owns(q, p), q.pnputil,
                 present, repaired, stillDisabled)
  {
    var owns;
    ghost var journal;
    owns, journal := ReadOwnership(io, q);
    p := Pass(journal, [], false);
    if q.admin && q.devs.Some? {
      ghost var xs;
      present, repaired, stillDisabled, xs := RepairAll(io, q.devs.value, owns, q.pnputil);
      p := p.(repairs := xs);
    } else {
      present, repaired, stillDisabled := 0, 0, 0;
      NothingYet(io.trace);
    }
  }

  // How the attempt to remove the journal ends is part of the script, and of
  // nothing before it.
  lemma GoneIsLast(q: Request, p: Pass, gone: bool)
    requires LegalPass(q, p)
    ensures var p' := p.(gone := gone);
            LegalPass(q, p') && Opening(q, p') == Opening(q, p) && Clears(q, p') == Clears(q, p)
            && Outcome(q, p') == Outcome(q, p)
  {
  }

  /** `recover_disabled_radio`: it performs exactly one script and reports what
      that script means. The journal is removed only by a script that clears it. */
  method RecoverDisabledRadio(io: PnpIo, q: Request) returns (r: RepairOutcome, ghost p: Pass)
    requires io.Valid()
    modifies io
    ensures io.Valid() && LegalPass(q, p) && (p.journal ==> old(io.world.journal))
    ensures io.trace == old(io.trace) + PassSteps(q, p) && r == Outcome(q, p)
    ensures io.safe <==> old(io.safe) && CrashSafe(old(io.world), PassSteps(q, p))
    ensures io.world.journal <==> old(io.world.journal) && !(Clears(q, p) && p.gone)
  {
    ghost var before, start := io.world, io.trace;
    var present, repaired, stillDisabled;
    present, repaired, stillDisabled, p := RepairListed(io, q);
    var done := present > 0 && stillDisabled == 0;
    assert done == Clears(q, p);
    r := RepairOutcome(done && repaired > 0, present);
    assert r == Outcome(q, p);
    ghost var gone := Conclude(io, done);
    GoneIsLast(q, p, gone);
    p := p.(gone := gone);
    PassShape(start, q, p);
    AuditConcat(io.start, start, PassSteps(q, p));
    PassJournal(before, q, p);
  }

  // -------------------------------------------------------------------------
  // When is nothing forgotten?
  // -------------------------------------------------------------------------

  /** The first status: started, no problem bit, problem code 0. */
  predicate FoundRunning(x: Repair) {
    x.first == Some(Status(true, false, 0))
  }

  /** The first status: a problem, and problem code 22, which is how a user's own disable
      looks too. */
  predicate FoundDisabled(x: Repair) {
    x.first.Some? && x.first.value.problemBit && x.first.value.problem == 22
  }

  /** Some query of the pass found the radio started. */
  predicate WasStarted(x: Repair) {
    FoundRunning(x)
    || (x.rounds != [] && EndsStarted(x.rounds[|x.rounds| - 1].afterDif))
    || (x.rounds != [] && EndsStarted(x.rounds[|x.rounds| - 1].afterCm))
    || (x.verbs != [] && EndsStarted(x.verbs[|x.verbs| - 1]))
  }

  /** Nothing is left to do for this radio. */
  predicate Finished(x: Repair, owns: bool) {
    x.first.None? || WasStarted(x) || (FoundDisabled(x) && !owns)
  }

  /** A status that is readable, not "started", and not a disable that the pass must take
      for the user's. */
  predicate Broken(x: Repair, owns: bool) {
    x.first.Some? && !FoundRunning(x) && (FoundDisabled(x) ==> owns)
  }

  /** Some step asks to enable the radio. */
  predicate Tried(node: nat, t: seq<Step>) {
    exists s <- t :: s.Change? && s.node == node && s.enable
  }

  lemma RoundsTry(node: nat, rs: seq<Round>)
    requires rs != []
    ensures Tried(node, RoundsSteps(node, rs))
  {
    var r := rs[|rs| - 1];
    var last := RoundSteps(node, r);
    assert last[0] == Change(node, true, r.dif);
    assert last[0] in last;
    assert |rs| == 1 ==> RoundsSteps(node, rs) == last;
    assert forall s <- last :: s in RoundsSteps(node, rs);
  }

  /** WHICH RADIO IS REPAIRED, by its first status. */
  lemma TriedIff(node: nat, x: Repair, owns: bool, pnputil: bool)
    requires LegalRepair(x, owns, pnputil)
    ensures Tried(node, RepairSteps(node, x)) <==> Broken(x, owns)
  {
    assert Needed(x, owns) <==> Broken(x, owns);
    if Needed(x, owns) {
      RoundsTry(node, x.rounds);
      assert forall s <- RoundsSteps(node, x.rounds) :: s in RepairSteps(node, x);
    } else {
      assert RepairSteps(node, x) == [Observe(node, x.first)];
    }
  }

  /** WHAT IS TRIED: the verified enable, then -- if it never saw the radio STARTED and
      there is a pnputil -- the two pnputil verbs, the second exactly if the wait behind
      the first did not end STARTED. */
  lemma VerbsTold(x: Repair, owns: bool, pnputil: bool)
    requires LegalRepair(x, owns, pnputil)
    ensures x.rounds != [] <==> Broken(x, owns)
    ensures x.verbs != [] <==>
              Broken(x, owns) && pnputil && !EndsStarted(x.rounds[|x.rounds| - 1].afterDif)
              && !EndsStarted(x.rounds[|x.rounds| - 1].afterCm)
    ensures x.verbs != [] ==> |x.verbs| == if EndsStarted(x.verbs[0]) then 1 else 2
  {
    assert Needed(x, owns) <==> Broken(x, owns);
  }

  lemma SettledIff(x: Repair, owns: bool, pnputil: bool)
    requires LegalRepair(x, owns, pnputil)
    ensures Settled(x, owns) <==> Finished(x, owns)
    ensures SeenStarted(x) <==> WasStarted(x)
    ensures Needed(x, owns) <==> Broken(x, owns)
  {
  }

  /** WHEN A PASS CLEARS THE JOURNAL, by the status bits: a CSR radio is listed, and each
      listed one was unreadable when the pass came to it, was seen started, or was found
      disabled by a pass that does not own disables. */
  lemma ClearedMeansSettled(q: Request, p: Pass)
    requires LegalPass(q, p)
    ensures Clears(q, p)
            <==> q.Listed() != [] && forall i :: 0 <= i < |p.repairs| ==> Finished(p.repairs[i], Owns(q, p))
    ensures Outcome(q, p).repaired
            <==> Clears(q, p) && exists i :: 0 <= i < |p.repairs| && Broken(p.repairs[i], Owns(q, p))
  {
    forall i | 0 <= i < |p.repairs| ensures Settled(p.repairs[i], Owns(q, p)) <==> Finished(p.repairs[i], Owns(q, p)) {
      SettledIff(p.repairs[i], Owns(q, p), q.pnputil);
    }
    assert forall i :: 0 <= i < |p.repairs| ==>
                         (Needed(p.repairs[i], Owns(q, p)) <==> Broken(p.repairs[i], Owns(q, p)));
  }

  /** `unreadable` are the radios whose first status query of the pass fails, and
      `seen` is what the journal query says. */
  ghost predicate Reads(q: Request, p: Pass, seen: bool, unreadable: set<nat>) {
    p.journal == seen
    && forall i :: 0 <= i < |p.repairs| && i < |q.Listed()| ==>
         (p.repairs[i].first.None? <==> q.Listed()[i] in unreadable)
  }

  /** Every script that the pass may perform is crash safe, whatever else the
      system answers. */
  ghost predicate AllPassesSafe(w: World, q: Request, seen: bool, unreadable: set<nat>) {
    forall p: Pass | LegalPass(q, p) && Reads(q, p, seen, unreadable) :: CrashSafe(w, PassSteps(q, p))
  }

  /** A radio at risk is in plain sight of a pass that lists it, can read its status,
      and knows that a disable is ours. */
  predicate InSight(q: Request, seen: bool, unreadable: set<nat>, n: nat) {
    (q.forced || seen) && n in q.Listed() && n !in unreadable
  }

  /** The script in which nothing needs repair: what can be read is STARTED, or `down`
      and disabled. */
  function IdleRepairs(ids: seq<nat>, unreadable: set<nat>, down: nat): (xs: seq<Repair>)
    ensures |xs| == |ids|
  {
    seq(|ids|, i requires 0 <= i < |ids| =>
      Repair(if ids[i] in unreadable then None else Some(if ids[i] == down then DISABLED else STARTED), [], []))
  }

  function IdlePass(q: Request, seen: bool, unreadable: set<nat>, down: nat): Pass {
    Pass(seen, IdleRepairs(q.Listed(), unreadable, down), true)
  }

  lemma IdlePassForgets(w: World, q: Request, seen: bool, unreadable: set<nat>, n: nat)
    requires Safe(w) && q.Listed() != [] && n in w.atRisk && !InSight(q, seen, unreadable, n)
    ensures var p := IdlePass(q, seen, unreadable, n);
            LegalPass(q, p) && Reads(q, p, seen, unreadable) && !Outcome(q, p).repaired
            && CrashSafe(w, BeforeClosing(q, p)) && !CrashSafe(w, PassSteps(q, p))
  {
    var p := IdlePass(q, seen, unreadable, n);
    assert MeansStarted(STARTED) && MeansDisabled(DISABLED) && !MeansStarted(DISABLED);
    assert forall i :: 0 <= i < |p.repairs| ==> !Needed(p.repairs[i], Owns(q, p));
    assert n !in SeenAmong(q.Listed(), p.repairs);
    PassSafe(w, q, p);
  }

  /** The same of one script: the pass found the radio, could read its status, and
      knew that a disable is ours. */
  predicate InPlainSight(q: Request, p: Pass, n: nat) {
    Owns(q, p)
    && exists i :: 0 <= i < |q.Listed()| && i < |p.repairs| && q.Listed()[i] == n && p.repairs[i].first.Some?
  }

  /** A script that has every radio at risk in plain sight forgets none. */
  lemma PlainSightIsEnough(w: World, q: Request, p: Pass)
    requires Safe(w) && LegalPass(q, p)
    requires q.Listed() == [] || forall n <- w.atRisk :: InPlainSight(q, p, n)
    ensures CrashSafe(w, PassSteps(q, p))
  {
    if Clears(q, p) {
      forall n | n in w.atRisk ensures n in SeenAmong(q.Listed(), p.repairs) {
        assert InPlainSight(q, p, n);
        var i :| 0 <= i < |q.Listed()| && q.Listed()[i] == n && p.repairs[i].first.Some?;
        assert Settled(p.repairs[i], Owns(q, p)) && LegalRepair(p.repairs[i], Owns(q, p), q.pnputil);
        assert SeenStarted(p.repairs[i]);
      }
    }
    PassSafe(w, q, p);
  }

  lemma SightIsPlain(q: Request, p: Pass, seen: bool, unreadable: set<nat>, n: nat)
    requires LegalPass(q, p) && Reads(q, p, seen, unreadable) && InSight(q, seen, unreadable, n)
    ensures InPlainSight(q, p, n)
  {
    var i :| 0 <= i < |q.Listed()| && q.Listed()[i] == n;
    assert p.repairs[i].first.Some?;
  }

  /** EXACTLY WHEN NOTHING IS FORGOTTEN: a repair pass is crash safe, whatever the
      system answers, if and only if it lists no CSR radio at all -- not elevated,
      no enumeration, nothing plugged in -- or every radio we may have taken down
      is listed, its status can be read, and the journal was seen or not needed. */
  lemma AllPassesSafeIff(w: World, q: Request, seen: bool, unreadable: set<nat>)
    requires Safe(w)
    ensures AllPassesSafe(w, q, seen, unreadable)
            <==> q.Listed() == [] || forall n <- w.atRisk :: InSight(q, seen, unreadable, n)
  {
    if q.Listed() == [] || forall n <- w.atRisk :: InSight(q, seen, unreadable, n) {
      forall p: Pass | LegalPass(q, p) && Reads(q, p, seen, unreadable) ensures CrashSafe(w, PassSteps(q, p)) {
        forall n | n in w.atRisk && InSight(q, seen, unreadable, n) ensures InPlainSight(q, p, n) {
          SightIsPlain(q, p, seen, unreadable, n);
        }
        PlainSightIsEnough(w, q, p);
      }
    } else {
      var n :| n in w.atRisk && !InSight(q, seen, unreadable, n);
      IdlePassForgets(w, q, seen, unreadable, n);
    }
  }

  /** With the journal seen as it is and every status readable, listing the radios at
      risk is what it takes. */
  lemma ReadablePassesSafeIff(w: World, q: Request)
    requires Safe(w)
    ensures AllPassesSafe(w, q, w.journal, {}) <==> q.Listed() == [] || forall n <- w.atRisk :: n in q.Listed()
  {
    AllPassesSafeIff(w, q, w.journal, {});
    assert forall n <- w.atRisk :: InSight(q, w.journal, {}, n) <==> n in q.Listed();
  }

  /** With no promise about statuses, nothing may be at risk at all. */
  lemma AnyPassesSafeIff(w: World, q: Request, seen: bool)
    requires Safe(w)
    ensures (forall unreadable: set<nat> :: AllPassesSafe(w, q, seen, unreadable))
            <==> q.Listed() == [] || w.atRisk == {}
  {
    if q.Listed() == [] || w.atRisk == {} {
      forall unreadable: set<nat> ensures AllPassesSafe(w, q, seen, unreadable) {
        AllPassesSafeIff(w, q, seen, unreadable);
      }
    } else {
      AllPassesSafeIff(w, q, seen, w.atRisk);
      var n :| n in w.atRisk;
      assert !InSight(q, seen, w.atRisk, n);
    }
  }

  /** An automatic pass that cannot examine the journal file takes a disable for the
      user's: it is crash safe only if there is nothing to lose. */
  lemma UnseenJournalSafeIff(w: World, q: Request, unreadable: set<nat>)
    requires Safe(w) && !q.forced
    ensures AllPassesSafe(w, q, false, unreadable) <==> q.Listed() == [] || w.atRisk == {}
  {
    AllPassesSafeIff(w, q, false, unreadable);
    assert forall n :: !InSight(q, false, unreadable, n);
  }

  /** How one is forgotten: `stranded` was taken down and is unplugged, another CSR
      radio is plugged in. The code performs a script, with the journal seen and every
      status readable and STARTED, that is safe up to the step that removes the journal. */
  lemma UnpluggedRadioIsForgotten(w: World, q: Request, stranded: nat) returns (p: Pass)
    requires Safe(w) && stranded in w.atRisk && stranded !in q.Listed() && q.Listed() != []
    ensures LegalPass(q, p) && Reads(q, p, w.journal, {}) && !Outcome(q, p).repaired
    ensures forall i :: 0 <= i < |p.repairs| ==> p.repairs[i].first == Some(STARTED)
    ensures CrashSafe(w, BeforeClosing(q, p)) && !CrashSafe(w, PassSteps(q, p))
  {
    p := IdlePass(q, w.journal, {}, stranded);
    IdlePassForgets(w, q, w.journal, {}, stranded);
  }

  /** ... and how one in plain sight is: it is plugged in and seen disabled, but the
      journal file could not be examined, so the pass leaves the radio alone and
      removes the journal. */
  lemma UnseenJournalForgets(w: World, q: Request, stranded: nat) returns (p: Pass)
    requires Safe(w) && stranded in w.atRisk && stranded in q.Listed() && !q.forced
    ensures LegalPass(q, p) && Reads(q, p, false, {}) && !Outcome(q, p).repaired
    ensures forall i :: 0 <= i < |p.repairs| && q.Listed()[i] == stranded ==> p.repairs[i].first == Some(DISABLED)
    ensures CrashSafe(w, BeforeClosing(q, p)) && !CrashSafe(w, PassSteps(q, p))
  {
    p := IdlePass(q, false, {}, stranded);
    IdlePassForgets(w, q, false, {}, stranded);
  }
}
