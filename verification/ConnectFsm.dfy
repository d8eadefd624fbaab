/** `connect_fsm.rs`: the profile-driver toggle.

    The outside world is a script of IO steps. The methods drive it and record
    it; the trace predicates say which scripts a pass may produce for every
    behaviour of the Bluetooth stack, of the disk and of the marker file. */
module ConnectFsm {
  import opened Config
  import opened Numeric
  import opened Backoff
  import opened Wrappers

  const RC_SUCCESS: u32 := 0
  const ERROR_INVALID_PARAMETER: u32 := 87
  const ERROR_SERVICE_DOES_NOT_EXIST: u32 := 1060
  const E_INVALIDARG: u32 := 0x8007_0057

  datatype Profile = A2dp | Hfp | Avrcp

  const ORDER: seq<Profile> := [A2dp, Hfp, Avrcp]

  datatype RcClass = Changed | AlreadyInState | NotSupported | Error

  /** `classify`. */
  function Classify(rc: u32): RcClass {
    if rc == RC_SUCCESS then Changed
    else if rc == E_INVALIDARG || rc == ERROR_INVALID_PARAMETER then AlreadyInState
    else if rc == ERROR_SERVICE_DOES_NOT_EXIST then NotSupported
    else Error
  }

  datatype Outcome = Connected | Reconnecting | Refused | Inert | NotFound | ServiceDebt | Failed

  datatype ConnectResult = ConnectResult(outcome: Outcome, toggled: bool, serviceLeftDisabled: bool)

  // -------------------------------------------------------------------------
  // IO
  // -------------------------------------------------------------------------

  /** The marker file: absent, naming a profile, or unreadable rubbish. */
  datatype Marker = NoMarker | Names(profile: Profile) | Torn

  /** One step of the outside world together with its answer. A failed arming
      may leave the file in any state, a failed removal leaves it alone. */
  datatype IoStep =
    | ReadMarker(seen: Option<Profile>)
    | SetState(profile: Profile, enable: bool, rc: u32)
    | Wait(ms: nat)
    | Arm(profile: Profile, ok: bool, left: Marker)
    | Clear(gone: bool)

  type Trace = seq<IoStep>

  class ServiceIo {
    ghost var trace: Trace

    constructor ()
      ensures trace == []
    {
      trace := [];
    }

    method ReadDebtMarker() returns (seen: Option<Profile>)
      modifies this
      ensures trace == old(trace) + [ReadMarker(seen)]
    {
      seen := *;
      trace := trace + [ReadMarker(seen)];
    }

    method SetServiceState(profile: Profile, enable: bool) returns (rc: u32)
      modifies this
      ensures trace == old(trace) + [SetState(profile, enable, rc)]
    {
      rc := *;
      trace := trace + [SetState(profile, enable, rc)];
    }

    method Sleep(ms: nat)
      modifies this
      ensures trace == old(trace) + [Wait(ms)]
    {
      trace := trace + [Wait(ms)];
    }

    method DebtArm(profile: Profile) returns (ok: bool, ghost left: Marker)
      modifies this
      ensures ok ==> left == Names(profile)
      ensures trace == old(trace) + [Arm(profile, ok, left)]
    {
      ok := *;
      left := *;
      if ok {
        left := Names(profile);
      }
      trace := trace + [Arm(profile, ok, left)];
    }

    method DebtClear() returns (ghost gone: bool)
      modifies this
      ensures trace == old(trace) + [Clear(gone)]
    {
      gone := *;
      trace := trace + [Clear(gone)];
    }
  }

  // -------------------------------------------------------------------------
  // The scripts a pass may produce
  // -------------------------------------------------------------------------

  predicate Restores(rc: u32) {
    Classify(rc) in {Changed, AlreadyInState}
  }

  /** Re-enabling from `attempt` on: wait, ask, stop at the first answer that
      says the driver is there. */
  predicate ReenableTrace(p: Profile, attempt: nat, t: Trace, ok: bool)
    decreases |t|
  {
    if attempt >= CONNECT_REENABLE_ATTEMPTS then t == [] && !ok
    else
      |t| >= 2 && t[0] == Wait(ReenableWait(attempt))
      && t[1].SetState? && t[1].profile == p && t[1].enable
      && if Restores(t[1].rc) then ok && |t| == 3 && t[2].Clear?
         else ReenableTrace(p, attempt + 1, t[2..], ok)
  }

  /** Promise first, then remove, then put back. */
  predicate ToggleTrace(p: Profile, t: Trace, r: ConnectResult) {
    |t| >= 1 && t[0].Arm? && t[0].profile == p && (t[0].ok ==> t[0].left == Names(p))
    && if !t[0].ok then |t| == 1 && r == ConnectResult(Failed, false, false)
       else
         |t| >= 2 && t[1].SetState? && t[1].profile == p && !t[1].enable
         && match Classify(t[1].rc)
            case Changed =>
              (ReenableTrace(p, 0, t[2..], true) && r == ConnectResult(Reconnecting, true, false))
              || (ReenableTrace(p, 0, t[2..], false) && r == ConnectResult(ServiceDebt, true, true))
            case AlreadyInState => |t| == 3 && t[2].Clear? && r == ConnectResult(Inert, false, false)
            case _ => |t| == 3 && t[2].Clear? && r == ConnectResult(Failed, false, false)
  }

  /** What a pass reports when no profile changed and none was toggled. */
  function Verdict(already: bool, unsupported: bool, error: bool): Outcome {
    if error then Failed else if already then Refused else if unsupported then NotFound else Failed
  }

  /** The plain enables from profile number `i` on. */
  predicate ConnectFrom(i: nat, allow: bool, already: bool, unsupported: bool, error: bool, t: Trace, r: ConnectResult)
    requires i <= 3
    decreases 3 - i
  {
    if i == 3 then t == [] && r == ConnectResult(Verdict(already, unsupported, error), false, false)
    else
      |t| >= 1 && t[0].SetState? && t[0].profile == ORDER[i] && t[0].enable
      && match Classify(t[0].rc)
         case Changed => |t| == 1 && r == ConnectResult(Connected, false, false)
         case NotSupported => ConnectFrom(i + 1, allow, already, true, error, t[1..], r)
         case AlreadyInState =>
           if allow then ToggleTrace(ORDER[i], t[1..], r)
           else ConnectFrom(i + 1, allow, true, unsupported, error, t[1..], r)
         case Error => ConnectFrom(i + 1, allow, already, unsupported, true, t[1..], r)
  }

  predicate ConnectTrace(allow: bool, t: Trace, r: ConnectResult) {
    ConnectFrom(0, allow, false, false, false, t, r)
  }

  // -------------------------------------------------------------------------
  // The code
  // -------------------------------------------------------------------------

  // The loop's step: one more failed attempt in front.
  lemma OneMoreAttempt(p: Profile, attempt: nat, rc: u32, t: Trace, ok: bool)
    requires attempt < CONNECT_REENABLE_ATTEMPTS
    requires if Restores(rc) then ok && |t| == 1 && t[0].Clear? else ReenableTrace(p, attempt + 1, t, ok)
    ensures ReenableTrace(p, attempt, [Wait(ReenableWait(attempt)), SetState(p, true, rc)] + t, ok)
  {
    assert ([Wait(ReenableWait(attempt)), SetState(p, true, rc)] + t)[2..] == t;
  }

  /** `reenable_profile`. The script `t` is what the call added. */
  method ReenableProfile(io: ServiceIo, p: Profile) returns (ok: bool, ghost t: Trace)
    modifies io
    ensures io.trace == old(io.trace) + t && ReenableTrace(p, 0, t, ok)
  {
    t := [];
    var attempt := 0;
    forall u, ok | ReenableTrace(p, 0, u, ok) ensures ReenableTrace(p, 0, t + u, ok) {
      assert t + u == u;
    }
    while attempt < CONNECT_REENABLE_ATTEMPTS
      invariant 0 <= attempt <= CONNECT_REENABLE_ATTEMPTS
      invariant io.trace == old(io.trace) + t
      invariant forall u, ok :: ReenableTrace(p, attempt, u, ok) ==> ReenableTrace(p, 0, t + u, ok)
    {
      ghost var sofar := t;
      var ms := ReenableWaitMs(attempt);
      io.Sleep(ms);
      var rc := io.SetServiceState(p, true);
      ghost var two := [Wait(ms), SetState(p, true, rc)];
      if Restores(rc) {
        var gone := io.DebtClear();
        OneMoreAttempt(p, attempt, rc, [Clear(gone)], true);
        t := sofar + (two + [Clear(gone)]);
        return true, t;
      }
      t := sofar + two;
      forall u, ok | ReenableTrace(p, attempt + 1, u, ok) ensures ReenableTrace(p, 0, t + u, ok) {
        OneMoreAttempt(p, attempt, rc, u, ok);
        assert t + u == sofar + (two + u);
      }
      attempt := attempt + 1;
    }
    assert ReenableTrace(p, attempt, [], false);
    assert t + [] == t;
    ok := false;
  }

  /** `toggle_profile`. */
  method ToggleProfile(io: ServiceIo, p: Profile) returns (r: ConnectResult, ghost t: Trace)
    modifies io
    ensures io.trace == old(io.trace) + t && ToggleTrace(p, t, r)
  {
    var armed, left := io.DebtArm(p);
    t := [Arm(p, armed, left)];
    if !armed { return ConnectResult(Failed, false, false), t; }
    var rcOff := io.SetServiceState(p, false);
    t := t + [SetState(p, false, rcOff)];
    if Classify(rcOff) != Changed {
      var gone := io.DebtClear();
      t := t + [Clear(gone)];
      r := ConnectResult(if Classify(rcOff) == AlreadyInState then Inert else Failed, false, false);
      return;
    }
    var ok, back := ReenableProfile(io, p);
    ghost var promised := t;
    t := promised + back;
    assert t[2..] == back && t[0] == promised[0] && t[1] == promised[1];
    r := if ok then ConnectResult(Reconnecting, true, false) else ConnectResult(ServiceDebt, true, true);
  }

  // The flags of the loop in `drive_connect`.
  datatype Seen = Seen(already: bool, unsupported: bool, error: bool)

  // `sofar` is the script of the profiles before number `i`.
  ghost predicate Extends(allow: bool, i: nat, seen: Seen, sofar: Trace)
    requires i <= 3
  {
    forall u, r :: ConnectFrom(i, allow, seen.already, seen.unsupported, seen.error, u, r)
      ==> ConnectTrace(allow, sofar + u, r)
  }

  // What may follow the enable of profile `i` that answered `rc`.
  predicate Continues(allow: bool, i: nat, seen: Seen, rc: u32, u: Trace, r: ConnectResult)
    requires i < 3
  {
    match Classify(rc)
    case Changed => u == [] && r == ConnectResult(Connected, false, false)
    case NotSupported => ConnectFrom(i + 1, allow, seen.already, true, seen.error, u, r)
    case AlreadyInState =>
      if allow then ToggleTrace(ORDER[i], u, r) else ConnectFrom(i + 1, allow, true, seen.unsupported, seen.error, u, r)
    case Error => ConnectFrom(i + 1, allow, seen.already, seen.unsupported, true, u, r)
  }

  lemma EndOfPass(allow: bool, i: nat, seen: Seen, sofar: Trace, rc: u32, u: Trace, r: ConnectResult)
    requires i < 3 && Extends(allow, i, seen, sofar) && Continues(allow, i, seen, rc, u, r)
    ensures ConnectTrace(allow, sofar + [SetState(ORDER[i], true, rc)] + u, r)
  {
    var v := [SetState(ORDER[i], true, rc)] + u;
    assert v[1..] == u;
    assert ConnectFrom(i, allow, seen.already, seen.unsupported, seen.error, v, r);
    assert sofar + v == sofar + [SetState(ORDER[i], true, rc)] + u;
  }

  lemma EndChanged(allow: bool, i: nat, seen: Seen, sofar: Trace, rc: u32)
    requires i < 3 && Extends(allow, i, seen, sofar) && Classify(rc) == Changed
    ensures ConnectTrace(allow, sofar + [SetState(ORDER[i], true, rc)], ConnectResult(Connected, false, false))
  {
    EndOfPass(allow, i, seen, sofar, rc, [], ConnectResult(Connected, false, false));
    assert sofar + [SetState(ORDER[i], true, rc)] + [] == sofar + [SetState(ORDER[i], true, rc)];
  }

  lemma EndToggled(allow: bool, i: nat, seen: Seen, sofar: Trace, rc: u32, u: Trace, r: ConnectResult)
    requires i < 3 && Extends(allow, i, seen, sofar) && Classify(rc) == AlreadyInState && allow
    requires ToggleTrace(ORDER[i], u, r)
    ensures ConnectTrace(allow, sofar + [SetState(ORDER[i], true, rc)] + u, r)
  {
    EndOfPass(allow, i, seen, sofar, rc, u, r);
  }

  lemma NextProfile(allow: bool, i: nat, seen: Seen, sofar: Trace, rc: u32, seen': Seen)
    requires i < 3 && Extends(allow, i, seen, sofar)
    requires match Classify(rc)
             case Changed => false
             case NotSupported => seen' == seen.(unsupported := true)
             case AlreadyInState => !allow && seen' == seen.(already := true)
             case Error => seen' == seen.(error := true)
    ensures Extends(allow, i + 1, seen', sofar + [SetState(ORDER[i], true, rc)])
  {
    forall u, r | ConnectFrom(i + 1, allow, seen'.already, seen'.unsupported, seen'.error, u, r)
      ensures ConnectTrace(allow, sofar + [SetState(ORDER[i], true, rc)] + u, r)
    {
      EndOfPass(allow, i, seen, sofar, rc, u, r);
    }
  }

  lemma NothingYet(allow: bool)
    ensures Extends(allow, 0, Seen(false, false, false), [])
  {
    forall u, r | ConnectTrace(allow, u, r) ensures ConnectTrace(allow, [] + u, r) {
      var t: Trace := [];
      assert t + u == u;
    }
  }

  lemma AllProfiles(allow: bool, seen: Seen, sofar: Trace)
    requires Extends(allow, 3, seen, sofar)
    ensures ConnectTrace(allow, sofar, ConnectResult(Verdict(seen.already, seen.unsupported, seen.error), false, false))
  {
    var r := ConnectResult(Verdict(seen.already, seen.unsupported, seen.error), false, false);
    assert ConnectFrom(3, allow, seen.already, seen.unsupported, seen.error, [], r);
    assert sofar + [] == sofar;
  }

  lemma Regroup(a: Trace, b: Trace, c: Trace)
    ensures a + b + c == a + (b + c)
  {
  }

  /** `drive_connect`. */
  method DriveConnect(io: ServiceIo, allow: bool) returns (r: ConnectResult, ghost t: Trace)
    modifies io
    ensures io.trace == old(io.trace) + t && ConnectTrace(allow, t, r)
  {
    t := [];
    var already, unsupported, error := false, false, false;
    var i := 0;
    NothingYet(allow);
    while i < 3
      invariant 0 <= i <= 3
      invariant io.trace == old(io.trace) + t
      invariant Extends(allow, i, Seen(already, unsupported, error), t)
    {
      ghost var seen, sofar := Seen(already, unsupported, error), t;
      var profile := ORDER[i];
      var rc := io.SetServiceState(profile, true);
      t := sofar + [SetState(profile, true, rc)];
      Regroup(old(io.trace), sofar, [SetState(profile, true, rc)]);
      match Classify(rc) {
        case Changed =>
          r := ConnectResult(Connected, false, false);
          EndChanged(allow, i, seen, sofar, rc);
          return;
        case NotSupported => unsupported := true;
        case AlreadyInState =>
          already := true;
          if allow {
            ghost var rest;
            r, rest := ToggleProfile(io, profile);
            EndToggled(allow, i, seen, sofar, rc, rest, r);
            Regroup(old(io.trace), t, rest);
            t := t + rest;
            return;
          }
        case Error => error := true;
      }
      NextProfile(allow, i, seen, sofar, rc, Seen(already, unsupported, error));
      i := i + 1;
    }
    AllProfiles(allow, Seen(already, unsupported, error), t);
    r := ConnectResult(Verdict(already, unsupported, error), false, false);
  }
}
