/** The waits and the verified enable of `pnp/devnode.rs`, with all their scripts. */
module Devnode {
  import opened Config
  import opened Journal
  import opened Wrappers

  // -------------------------------------------------------------------------
  // The scripts of a verified enable
  // -------------------------------------------------------------------------

  /** One status query, as `devnode_started` judges it. */
  predicate Up(s: Option<Status>) {
    s.Some? && MeansStarted(s.value)
  }

  /** A wait as the statuses it saw; it succeeded if the last one is STARTED. */
  type Sightings = seq<Option<Status>>

  predicate Succeeded(seen: Sightings) {
    seen != [] && Up(seen[|seen| - 1])
  }

  function PollSteps(node: nat, seen: Sightings): (t: seq<Step>)
    ensures |t| >= |seen|
  {
    if seen == [] then []
    else if |seen| == 1 then [Observe(node, seen[0])]
    else PollSteps(node, seen[..|seen| - 1]) + [Sleep(R2_REENUM_POLL_MS)] + [Observe(node, seen[|seen| - 1])]
  }

  // As many queries as a wait of at most `timeout` makes.
  predicate Lasts(seen: Sightings, timeout: nat, ok: bool) {
    seen != []
    && (|seen| > 1 ==> (|seen| - 2) * R2_REENUM_POLL_MS < timeout)
    && (!ok ==> (|seen| - 1) * R2_REENUM_POLL_MS >= timeout)
  }

  /** What a wait of at most `timeout` may have seen: it stops at the first
      STARTED, or at the first query after the time is up. */
  predicate PollEnds(seen: Sightings, timeout: nat, ok: bool) {
    Lasts(seen, timeout, ok) && Succeeded(seen) == ok && forall i :: 0 <= i < |seen| - 1 ==> !Up(seen[i])
  }

  /** The wait for a disable: it stops at the first disabled status. */
  predicate Down(s: Option<Status>) {
    s.Some? && MeansDisabled(s.value)
  }

  predicate SawDown(seen: Sightings) {
    seen != [] && Down(seen[|seen| - 1])
  }

  predicate DownEnds(seen: Sightings, timeout: nat, ok: bool) {
    Lasts(seen, timeout, ok) && SawDown(seen) == ok && forall i :: 0 <= i < |seen| - 1 ==> !Down(seen[i])
  }

  /** One round of the verified enable: both mechanisms in turn, each judged by
      the status it leads to. */
  datatype Round = Round(dif: bool, afterDif: Sightings, cm: bool, afterCm: Sightings) {
    predicate Ok() {
      Succeeded(afterDif) || Succeeded(afterCm)
    }
  }

  function RoundSteps(node: nat, r: Round): seq<Step> {
    [Change(node, true, r.dif)] + PollSteps(node, r.afterDif)
    + (if Succeeded(r.afterDif) then [] else [CmEnable(node, r.cm)] + PollSteps(node, r.afterCm))
  }

  predicate RoundEnds(r: Round, verify: nat) {
    (if r.dif then PollEnds(r.afterDif, verify, Succeeded(r.afterDif)) else r.afterDif == [])
    && if r.cm && !Succeeded(r.afterDif) then PollEnds(r.afterCm, verify, Succeeded(r.afterCm)) else r.afterCm == []
  }

  function RoundsSteps(node: nat, rs: seq<Round>): (t: seq<Step>)
    ensures |t| >= |rs|
  {
    if rs == [] then []
    else if |rs| == 1 then RoundSteps(node, rs[0])
    else
      RoundsSteps(node, rs[..|rs| - 1]) + [Sleep(R1_REENABLE_RETRY_MS * 2)] + RoundSteps(node, rs[|rs| - 1])
  }

  predicate RoundsOk(rs: seq<Round>) {
    rs != [] && rs[|rs| - 1].Ok()
  }

  /** The rounds of a verified enable: up to the first that succeeds, or all. */
  predicate RoundsEnd(rs: seq<Round>, verify: nat) {
    1 <= |rs| <= R1_REENABLE_ATTEMPTS && (!RoundsOk(rs) ==> |rs| == R1_REENABLE_ATTEMPTS)
    && (forall i :: 0 <= i < |rs| ==> RoundEnds(rs[i], verify))
    && forall i :: 0 <= i < |rs| - 1 ==> !rs[i].Ok()
  }

  /** The last query of a wait: started, no problem bit, problem code 0. */
  predicate EndsStarted(seen: Sightings) {
    seen != [] && seen[|seen| - 1] == Some(Status(true, false, 0))
  }

  predicate Disarms(t: seq<Step>) {
    exists s <- t :: s.DisarmJournal?
  }

  // -------------------------------------------------------------------------
  // Told by queries and status bits
  // -------------------------------------------------------------------------

  /** A wait of `k` quarters of a second makes at most `k + 1` queries, and all of them
      if it fails. */
  lemma Patience(seen: Sightings, k: nat, ok: bool)
    requires Lasts(seen, 250 * k, ok) && k > 0
    ensures 1 <= |seen| <= k + 1 && (!ok ==> |seen| == k + 1)
  {
  }

  /** ... and it stops at the first query that shows what it waits for. */
  lemma StopsAtOnce(seen: Sightings, timeout: nat, ok: bool)
    ensures PollEnds(seen, timeout, ok) ==>
              forall i :: 0 <= i < |seen| - 1 ==> seen[i] != Some(Status(true, false, 0))
    ensures DownEnds(seen, timeout, ok) ==>
              forall i :: 0 <= i < |seen| - 1 ==>
                seen[i].None? || !seen[i].value.problemBit || seen[i].value.problem != 22
  {
    forall s: Status ensures MeansStarted(s) <==> s == Status(true, false, 0) {}
  }

  lemma {:induction false} OnlyLooks(node: nat, seen: Sightings)
    ensures forall s <- PollSteps(node, seen) :: s.Observe? || s.Sleep?
    decreases |seen|
  {
    if |seen| > 1 {
      OnlyLooks(node, seen[..|seen| - 1]);
    }
  }

  /** HOW A RADIO IS ENABLED: `DICS_ENABLE` first, `CM_Enable_DevNode` exactly if the wait
      behind it did not end STARTED, and each call that was accepted is waited for. */
  lemma RoundTold(node: nat, r: Round, verify: nat)
    requires RoundEnds(r, verify)
    ensures RoundSteps(node, r)[0] == Change(node, true, r.dif)
    ensures (exists s <- RoundSteps(node, r) :: s.CmEnable?) <==> !EndsStarted(r.afterDif)
    ensures (r.afterDif != [] <==> r.dif) && (r.afterCm != [] <==> r.cm && !EndsStarted(r.afterDif))
    ensures r.Ok() <==> EndsStarted(r.afterDif) || EndsStarted(r.afterCm)
  {
    OnlyLooks(node, r.afterDif);
    if !EndsStarted(r.afterDif) {
      assert RoundSteps(node, r)[1 + |PollSteps(node, r.afterDif)|] == CmEnable(node, r.cm);
    }
  }

  /** Five rounds, or as many as it takes to see the radio STARTED. */
  lemma RoundsTold(rs: seq<Round>, verify: nat)
    requires RoundsEnd(rs, verify)
    ensures 1 <= |rs| <= 5
    ensures forall i :: 0 <= i < |rs| - 1 ==> !EndsStarted(rs[i].afterDif) && !EndsStarted(rs[i].afterCm)
    ensures |rs| < 5 ==> EndsStarted(rs[|rs| - 1].afterDif) || EndsStarted(rs[|rs| - 1].afterCm)
  {
  }

  // -------------------------------------------------------------------------
  // The code performs a script
  // -------------------------------------------------------------------------

  lemma PollSnoc(node: nat, seen: Sightings, s: Option<Status>)
    ensures PollSteps(node, seen + [s])
            == (if seen == [] then [] else PollSteps(node, seen) + [Sleep(R2_REENUM_POLL_MS)]) + [Observe(node, s)]
  {
    assert (seen + [s])[..|seen|] == seen;
  }

  // The steps of a wait so far, with the pause in front of the next query.
  function Waiting(node: nat, seen: Sightings): seq<Step> {
    if seen == [] then [] else PollSteps(node, seen) + [Sleep(R2_REENUM_POLL_MS)]
  }

  // One query of a wait.
  method Query(io: PnpIo, node: nat, ghost seen: Sightings, ghost start: seq<Step>) returns (s: Option<Status>)
    requires io.Valid() && io.trace == start + Waiting(node, seen)
    modifies io
    ensures io.Valid() && io.trace == start + PollSteps(node, seen + [s])
  {
    s := io.DevnodeStatus(node);
    PollSnoc(node, seen, s);
    Reassociate(start, Waiting(node, seen), [Observe(node, s)]);
  }

  // The pause behind a query that did not end the wait.
  method Linger(io: PnpIo, node: nat, ghost seen: Sightings, ghost start: seq<Step>)
    requires io.Valid() && seen != [] && io.trace == start + PollSteps(node, seen)
    modifies io
    ensures io.Valid() && io.trace == start + Waiting(node, seen)
  {
    io.Pause(R2_REENUM_POLL_MS);
    Reassociate(start, PollSteps(node, seen), [Sleep(R2_REENUM_POLL_MS)]);
  }

  // The queries of a wait so far, none of which was the awaited one.
  predicate Waited(seen: Sightings, timeout: nat, waited: int) {
    waited == |seen| * R2_REENUM_POLL_MS && (seen != [] ==> (|seen| - 1) * R2_REENUM_POLL_MS < timeout)
  }

  lemma AnotherQuery(seen: Sightings, s: Option<Status>, timeout: nat, waited: int)
    requires Waited(seen, timeout, waited)
    ensures Lasts(seen + [s], timeout, true)
    ensures waited >= timeout ==> Lasts(seen + [s], timeout, false)
    ensures waited < timeout ==> Waited(seen + [s], timeout, waited + R2_REENUM_POLL_MS)
  {
  }

  predicate NotUpYet(seen: Sightings, timeout: nat, waited: int) {
    Waited(seen, timeout, waited) && forall i :: 0 <= i < |seen| ==> !Up(seen[i])
  }

  predicate NotDownYet(seen: Sightings, timeout: nat, waited: int) {
    Waited(seen, timeout, waited) && forall i :: 0 <= i < |seen| ==> !Down(seen[i])
  }

  lemma UpOrOn(seen: Sightings, s: Option<Status>, timeout: nat, waited: int)
    requires NotUpYet(seen, timeout, waited)
    ensures if Up(s) || waited >= timeout then PollEnds(seen + [s], timeout, Up(s))
            else NotUpYet(seen + [s], timeout, waited + R2_REENUM_POLL_MS)
  {
    AnotherQuery(seen, s, timeout, waited);
  }

  lemma DownOrOn(seen: Sightings, s: Option<Status>, timeout: nat, waited: int)
    requires NotDownYet(seen, timeout, waited)
    ensures if Down(s) || waited >= timeout then DownEnds(seen + [s], timeout, Down(s))
            else NotDownYet(seen + [s], timeout, waited + R2_REENUM_POLL_MS)
  {
    AnotherQuery(seen, s, timeout, waited);
  }

  method WaitDevnodeStarted(io: PnpIo, node: nat, timeout: nat) returns (ok: bool, ghost seen: Sightings)
    requires io.Valid()
    modifies io
    ensures io.Valid() && PollEnds(seen, timeout, ok) && io.trace == old(io.trace) + PollSteps(node, seen)
  {
    var waited := 0;
    seen := [];
    NothingYet(io.trace);
    while true
      invariant io.Valid() && io.trace == old(io.trace) + Waiting(node, seen)
      invariant NotUpYet(seen, timeout, waited)
      decreases timeout + R2_REENUM_POLL_MS - waited
    {
      var s := Query(io, node, seen, old(io.trace));
      ok := s.Some? && MeansStarted(s.value);
      UpOrOn(seen, s, timeout, waited);
      seen := seen + [s];
      if ok || waited >= timeout { return; }
      Linger(io, node, seen, old(io.trace));
      waited := waited + R2_REENUM_POLL_MS;
    }
  }

  /** `wait_devnode_disabled`. Observing STARTED on the way is not a verdict here,
      but it is an observation. */
  method WaitDevnodeDisabled(io: PnpIo, node: nat, timeout: nat) returns (ok: bool, ghost seen: Sightings)
    requires io.Valid()
    modifies io
    ensures io.Valid() && DownEnds(seen, timeout, ok) && io.trace == old(io.trace) + PollSteps(node, seen)
  {
    var waited := 0;
    seen := [];
    NothingYet(io.trace);
    while true
      invariant io.Valid() && io.trace == old(io.trace) + Waiting(node, seen)
      invariant NotDownYet(seen, timeout, waited)
      decreases timeout + R2_REENUM_POLL_MS - waited
    {
      var s := Query(io, node, seen, old(io.trace));
      ok := s.Some? && MeansDisabled(s.value);
      DownOrOn(seen, s, timeout, waited);
      seen := seen + [s];
      if ok || waited >= timeout { return; }
      Linger(io, node, seen, old(io.trace));
      waited := waited + R2_REENUM_POLL_MS;
    }
  }

  /** An accepted request is judged by the status it leads to. */
  method AwaitAccepted(io: PnpIo, node: nat, accepted: bool, verify: nat) returns (ok: bool, ghost seen: Sightings)
    requires io.Valid()
    modifies io
    ensures io.Valid() && io.trace == old(io.trace) + PollSteps(node, seen)
    ensures ok == Succeeded(seen) && if accepted then PollEnds(seen, verify, ok) else seen == []
  {
    ok, seen := false, [];
    if accepted {
      ok, seen := WaitDevnodeStarted(io, node, verify);
    } else {
      NothingYet(io.trace);
    }
  }

  lemma RoundShape(t: seq<Step>, node: nat, r: Round)
    ensures Succeeded(r.afterDif) ==>
      t + [Change(node, true, r.dif)] + PollSteps(node, r.afterDif) == t + RoundSteps(node, r)
    ensures !Succeeded(r.afterDif) ==>
      t + [Change(node, true, r.dif)] + PollSteps(node, r.afterDif)
      + [CmEnable(node, r.cm)] + PollSteps(node, r.afterCm)
      == t + RoundSteps(node, r)
  {
    var head := [Change(node, true, r.dif)] + PollSteps(node, r.afterDif);
    Reassociate(t, [Change(node, true, r.dif)], PollSteps(node, r.afterDif));
    assert head + [] == head;
    Reassociate(t + head, [CmEnable(node, r.cm)], PollSteps(node, r.afterCm));
    Reassociate(t, head, [CmEnable(node, r.cm)] + PollSteps(node, r.afterCm));
  }

  /** One round: `DICS_ENABLE`, then `CM_Enable_DevNode` if that did not do. */
  method EnableRound(io: PnpIo, node: nat, verify: nat) returns (ok: bool, ghost r: Round)
    requires io.Valid()
    modifies io
    ensures io.Valid() && RoundEnds(r, verify) && ok == r.Ok() && io.trace == old(io.trace) + RoundSteps(node, r)
  {
    var dif := io.PropChange(node, true);
    ghost var first, second := [], [];
    ok, first := AwaitAccepted(io, node, dif, verify);
    if ok {
      r := Round(dif, first, false, []);
    } else {
      var cm := io.EnableDevnode(node);
      ok, second := AwaitAccepted(io, node, cm, verify);
      r := Round(dif, first, cm, second);
    }
    RoundShape(old(io.trace), node, r);
  }

  lemma RoundsSnoc(node: nat, rs: seq<Round>, r: Round)
    ensures RoundsSteps(node, rs + [r])
            == (if rs == [] then [] else RoundsSteps(node, rs) + [Sleep(R1_REENABLE_RETRY_MS * 2)])
               + RoundSteps(node, r)
  {
    assert (rs + [r])[..|rs|] == rs;
    assert [] + RoundSteps(node, r) == RoundSteps(node, r);
  }

  lemma RoundsShape(t: seq<Step>, node: nat, rs: seq<Round>, r: Round)
    ensures rs == [] ==> t + RoundsSteps(node, rs) + RoundSteps(node, r) == t + RoundsSteps(node, rs + [r])
    ensures rs != [] ==>
      t + RoundsSteps(node, rs) + [Sleep(R1_REENABLE_RETRY_MS * 2)] + RoundSteps(node, r)
      == t + RoundsSteps(node, rs + [r])
  {
    var head := RoundsSteps(node, rs);
    RoundsSnoc(node, rs, r);
    if rs == [] {
      assert t + head == t;
    } else {
      Reassociate(t, head, [Sleep(R1_REENABLE_RETRY_MS * 2)]);
      Reassociate(t, head + [Sleep(R1_REENABLE_RETRY_MS * 2)], RoundSteps(node, r));
    }
  }

  // The rounds tried so far, none of which did it.
  predicate RoundsTried(rs: seq<Round>, verify: nat) {
    |rs| <= R1_REENABLE_ATTEMPTS && forall i :: 0 <= i < |rs| ==> RoundEnds(rs[i], verify) && !rs[i].Ok()
  }

  lemma AnotherRound(rs: seq<Round>, r: Round, verify: nat)
    requires RoundsTried(rs, verify) && |rs| < R1_REENABLE_ATTEMPTS && RoundEnds(r, verify)
    ensures r.Ok() ==> RoundsEnd(rs + [r], verify) && RoundsOk(rs + [r])
    ensures !r.Ok() ==> RoundsTried(rs + [r], verify)
  {
  }

  // The next round behind `rs`, after a pause if it is not the first.
  method NextRound(io: PnpIo, node: nat, verify: nat, first: bool, ghost rs: seq<Round>, ghost start: seq<Step>)
    returns (ok: bool, ghost r: Round)
    requires io.Valid() && io.trace == start + RoundsSteps(node, rs) && first == (rs == [])
    modifies io
    ensures io.Valid() && RoundEnds(r, verify) && ok == r.Ok() && io.trace == start + RoundsSteps(node, rs + [r])
  {
    if !first {
      io.Pause(R1_REENABLE_RETRY_MS * 2);
    }
    ok, r := EnableRound(io, node, verify);
    RoundsShape(start, node, rs, r);
  }

  /** `enable_devnode_verified`, and the enable loop of the cycle, which differs
      only in how long each verdict may take. */
  method EnableDevnodeVerified(io: PnpIo, node: nat, verify: nat) returns (ok: bool, ghost rs: seq<Round>)
    requires io.Valid()
    modifies io
    ensures io.Valid() && RoundsEnd(rs, verify) && ok == RoundsOk(rs)
    ensures io.trace == old(io.trace) + RoundsSteps(node, rs)
  {
    ok := false;
    rs := [];
    var attempt := 0;
    NothingYet(io.trace);
    while attempt < R1_REENABLE_ATTEMPTS
      invariant io.Valid() && !ok && attempt == |rs| && RoundsTried(rs, verify)
      invariant io.trace == old(io.trace) + RoundsSteps(node, rs)
    {
      ghost var r;
      ok, r := NextRound(io, node, verify, attempt == 0, rs, old(io.trace));
      AnotherRound(rs, r, verify);
      rs := rs + [r];
      if ok { return; }
      attempt := attempt + 1;
    }
  }

  // -------------------------------------------------------------------------
  // What a script does to the world
  // -------------------------------------------------------------------------

  lemma {:induction false} PollLeads(w: World, node: nat, seen: Sightings)
    requires forall i :: 0 <= i < |seen| - 1 ==> !Up(seen[i])
    ensures Leads(w, PollSteps(node, seen), Without(w, node, Succeeded(seen)))
    decreases |seen|
  {
    if seen != [] {
      var rest, s := seen[..|seen| - 1], seen[|seen| - 1];
      One(w, Observe(node, s));
      if |seen| > 1 {
        PollLeads(w, node, rest);
        One(w, Sleep(R2_REENUM_POLL_MS));
        LeadsConcat(w, PollSteps(node, rest), w, [Sleep(R2_REENUM_POLL_MS)], w);
        LeadsConcat(w, PollSteps(node, rest) + [Sleep(R2_REENUM_POLL_MS)], w, [Observe(node, s)],
                    Without(w, node, Up(s)));
      }
    }
  }

  lemma RoundLeads(w: World, node: nat, r: Round, verify: nat)
    requires RoundEnds(r, verify)
    ensures Leads(w, RoundSteps(node, r), Without(w, node, r.Ok()))
  {
    var x := Without(w, node, Succeeded(r.afterDif));
    var head := [Change(node, true, r.dif)] + PollSteps(node, r.afterDif);
    One(w, Change(node, true, r.dif));
    PollLeads(w, node, r.afterDif);
    LeadsConcat(w, [Change(node, true, r.dif)], w, PollSteps(node, r.afterDif), x);
    if Succeeded(r.afterDif) {
      assert head + [] == head;
    } else {
      One(w, CmEnable(node, r.cm));
      PollLeads(w, node, r.afterCm);
      var y := Without(w, node, Succeeded(r.afterCm));
      LeadsConcat(w, [CmEnable(node, r.cm)], w, PollSteps(node, r.afterCm), y);
      LeadsConcat(w, head, w, [CmEnable(node, r.cm)] + PollSteps(node, r.afterCm), y);
    }
  }

  lemma {:induction false} RoundsLeads(w: World, node: nat, rs: seq<Round>, verify: nat)
    requires forall i :: 0 <= i < |rs| ==> RoundEnds(rs[i], verify)
    requires forall i :: 0 <= i < |rs| - 1 ==> !rs[i].Ok()
    ensures Leads(w, RoundsSteps(node, rs), Without(w, node, RoundsOk(rs)))
    decreases |rs|
  {
    if rs != [] {
      var rest, r := rs[..|rs| - 1], rs[|rs| - 1];
      RoundLeads(w, node, r, verify);
      if |rs| > 1 {
        var pause := [Sleep(R1_REENABLE_RETRY_MS * 2)];
        RoundsLeads(w, node, rest, verify);
        One(w, Sleep(R1_REENABLE_RETRY_MS * 2));
        LeadsConcat(w, RoundsSteps(node, rest), w, pause, w);
        LeadsConcat(w, RoundsSteps(node, rest) + pause, w, RoundSteps(node, r), Without(w, node, r.Ok()));
      }
    }
  }
}
