/** What a connect pass makes of the return codes of `BluetoothSetServiceState`:
    `classify` and `drive_connect` of `connect_fsm.rs`, told by the codes alone. */
module Answers {
  import opened ConnectFsm
  import opened Wrappers

  /** 0x57 and 0x80070057: the service is in the requested state already. */
  predicate Kept(rc: nat) {
    rc == 0x57 || rc == 0x8007_0057
  }

  /** The driver is there, installed just now or before. */
  predicate There(rc: nat) {
    rc == 0 || Kept(rc)
  }

  /** 1060: the peer does not offer the profile. */
  predicate NotOffered(rc: nat) {
    rc == 1060
  }

  predicate Enables(s: IoStep) {
    s.SetState? && s.enable
  }

  predicate Disables(s: IoStep) {
    s.SetState? && !s.enable
  }

  predicate Toggles(t: Trace) {
    exists s <- t :: s.Arm?
  }

  predicate Removed(t: Trace) {
    exists s <- t :: Disables(s) && s.rc == 0
  }

  /** The answer to the last request. */
  function LastCode(t: Trace): Option<nat> {
    if t == [] then None
    else if t[|t| - 1].SetState? then Some(t[|t| - 1].rc)
    else LastCode(t[..|t| - 1])
  }

  predicate EndsThere(t: Trace) {
    LastCode(t).Some? && There(LastCode(t).value)
  }

  lemma {:induction false} LastCodeBehind(s: IoStep, t: Trace)
    ensures LastCode([s] + t)
            == if LastCode(t).Some? then LastCode(t) else if s.SetState? then Some(s.rc) else None
    decreases |t|
  {
    var u := [s] + t;
    if t == [] {
      assert u == [s] && LastCode(u[..0]) == None;
    } else {
      assert u[..|u| - 1] == [s] + t[..|t| - 1] && u[|u| - 1] == t[|t| - 1];
      LastCodeBehind(s, t[..|t| - 1]);
    }
  }

  lemma HeadAndTail(t: Trace)
    requires t != []
    ensures t == [t[0]] + t[1..]
  {
  }

  // -------------------------------------------------------------------------
  // Putting a driver back, and the toggle
  // -------------------------------------------------------------------------

  /** PUTTING A DRIVER BACK SUCCEEDS exactly when the last answer says that it is
      there; only that profile is asked for. */
  lemma {:induction false} PutBackIff(p: Profile, attempt: nat, t: Trace, ok: bool)
    requires ReenableTrace(p, attempt, t, ok)
    ensures ok <==> EndsThere(t)
    ensures forall s <- t :: (s.SetState? ==> s.enable && s.profile == p) && !s.Arm?
    decreases |t|
  {
    if t != [] {
      var rest := t[2..];
      HeadAndTail(t);
      HeadAndTail(t[1..]);
      assert t[1..][1..] == rest;
      LastCodeBehind(t[0], t[1..]);
      LastCodeBehind(t[1], rest);
      if Restores(t[1].rc) {
        assert rest == [t[2]] && rest[..0] == [];
      } else {
        PutBackIff(p, attempt + 1, rest, ok);
      }
    }
  }

  /** What a toggle came to, by its answers: refused, inert, reconnecting, or owing
      its driver. */
  predicate ToggleTold(p: Profile, t: Trace, o: Outcome) {
    t != [] && t[0].Arm? && t[0].profile == p
    && (forall k :: 1 <= k < |t| ==> !t[k].Arm?)
    && (forall s <- t :: s.SetState? ==> s.profile == p)
    && (o == Inert <==> exists s <- t :: Disables(s) && Kept(s.rc))
    && (o == Reconnecting <==> Removed(t) && EndsThere(t))
    && (o == ServiceDebt <==> Removed(t) && !EndsThere(t))
    && (o == Failed <==> !t[0].ok || exists s <- t :: Disables(s) && !There(s.rc))
    && o in {Inert, Reconnecting, ServiceDebt, Failed}
    && (t[0].ok <==> exists s <- t :: Disables(s))
  }

  // The disable was refused: nothing happened behind it.
  lemma RefusedToggle(p: Profile, arm: IoStep, off: IoStep, clear: IoStep)
    requires arm.Arm? && arm.profile == p && arm.ok && Disables(off) && off.profile == p && off.rc != 0 && clear.Clear?
    ensures ToggleTold(p, [arm, off, clear], if Kept(off.rc) then Inert else Failed)
  {
    var t := [arm, off, clear];
    assert off in t && forall s <- t :: s == arm || s == off || s == clear;
  }

  // The driver was removed: the last answer decides.
  lemma RemovedToggle(p: Profile, arm: IoStep, off: IoStep, back: Trace, ok: bool)
    requires arm.Arm? && arm.profile == p && arm.ok && Disables(off) && off.profile == p && off.rc == 0
    requires ReenableTrace(p, 0, back, ok)
    ensures ToggleTold(p, [arm, off] + back, if ok then Reconnecting else ServiceDebt)
  {
    var t := [arm, off] + back;
    PutBackIff(p, 0, back, ok);
    SomeCode(back, 1);
    LastCodeBehind(off, back);
    LastCodeBehind(arm, [off] + back);
    assert t == [arm] + ([off] + back);
    assert off in t && forall s :: s in t <==> s == arm || s == off || s in back;
  }

  lemma ToggleIsTold(p: Profile, t: Trace, r: ConnectResult)
    requires ToggleTrace(p, t, r)
    ensures ToggleTold(p, t, r.outcome)
  {
    if t[0].ok {
      if Classify(t[1].rc) == Changed {
        assert t == [t[0], t[1]] + t[2..];
        RemovedToggle(p, t[0], t[1], t[2..], r.outcome == Reconnecting);
      } else {
        assert t == [t[0], t[1], t[2]];
        RefusedToggle(p, t[0], t[1], t[2]);
      }
    } else {
      assert t == [t[0]];
    }
  }

  lemma {:induction false} SomeCode(t: Trace, k: nat)
    requires k < |t| && t[k].SetState?
    ensures LastCode(t).Some?
    decreases |t|
  {
    if !t[|t| - 1].SetState? {
      SomeCode(t[..|t| - 1], k);
    }
  }

  // -------------------------------------------------------------------------
  // The whole pass
  // -------------------------------------------------------------------------

  /** The plain enables in front, and the toggle behind them, if there is one. */
  function Asks(t: Trace): Trace {
    if t == [] || t[0].Arm? then [] else [t[0]] + Asks(t[1..])
  }

  function Toggle(t: Trace): Trace {
    if t == [] || t[0].Arm? then t else Toggle(t[1..])
  }

  /** Enables only, in the order of the profiles from number `i` on. */
  predicate InOrder(i: nat, asks: Trace) {
    i + |asks| <= 3 && forall k :: 0 <= k < |asks| ==> Enables(asks[k]) && asks[k].profile == [A2dp, Hfp, Avrcp][i + k]
  }

  /** The pass goes on to the next profile: this one neither answered "done" nor may
      be toggled. */
  predicate GoesOn(allow: bool, s: IoStep) {
    s.SetState? && s.rc != 0 && !(allow && Kept(s.rc))
  }

  predicate SomeKept(asks: Trace) {
    exists s <- asks :: s.SetState? && Kept(s.rc)
  }

  predicate SomeError(asks: Trace) {
    exists s <- asks :: s.SetState? && !There(s.rc) && !NotOffered(s.rc)
  }

  /** What the pass does, profile by profile. */
  predicate Course(i: nat, allow: bool, t: Trace) {
    var asks, toggle := Asks(t), Toggle(t);
    t == asks + toggle && InOrder(i, asks)
    && (forall k :: 0 <= k < |asks| - 1 ==> GoesOn(allow, asks[k]))
    && (asks == [] ==> i == 3 && toggle == [])
    && (asks != [] ==>
          var last := asks[|asks| - 1];
          (toggle != [] <==> allow && Kept(last.rc))
          && (toggle == [] ==> last.rc == 0 || i + |asks| == 3)
          && (toggle != [] ==> toggle[0].Arm? && toggle[0].profile == last.profile))
  }

  /** What it reports if it toggled nothing; the flags are those of the profiles
      before. */
  predicate PlainTold(seen: Seen, asks: Trace, o: Outcome) {
    var done := asks != [] && asks[|asks| - 1].SetState? && asks[|asks| - 1].rc == 0;
    var error, kept := seen.error || SomeError(asks), seen.already || SomeKept(asks);
    (o == Connected <==> done)
    && (o == Refused <==> !done && !error && kept)
    && (o == NotFound <==> !done && !error && !kept && (seen.unsupported || asks != []))
    && (o == Failed <==> !done && (error || !(kept || seen.unsupported || asks != [])))
  }

  predicate Told(i: nat, allow: bool, seen: Seen, t: Trace, o: Outcome) {
    Course(i, allow, t)
    && (Toggle(t) == [] ==> PlainTold(seen, t, o))
    && (Toggle(t) != [] ==> ToggleTold(Toggle(t)[0].profile, Toggle(t), o))
  }

  lemma LastProfile(i: nat, allow: bool, seen: Seen, s: IoStep)
    requires i < 3 && Enables(s) && s.profile == [A2dp, Hfp, Avrcp][i] && s.rc == 0
    ensures Told(i, allow, seen, [s], Connected)
  {
    var t := [s];
    assert t[1..] == [] && Asks(t) == [s] + Asks([]) && Toggle(t) == Toggle([]);
    assert Asks(t) == t && t == t + [];
  }

  lemma ToggledProfile(i: nat, seen: Seen, s: IoStep, toggle: Trace, o: Outcome)
    requires i < 3 && Enables(s) && s.profile == [A2dp, Hfp, Avrcp][i] && Kept(s.rc)
    requires ToggleTold(s.profile, toggle, o)
    ensures Told(i, true, seen, [s] + toggle, o)
  {
    var t := [s] + toggle;
    assert t[1..] == toggle && Asks(t) == [s] + Asks(toggle) && Asks(toggle) == [] && Toggle(t) == toggle;
    assert Asks(t) == [s];
  }

  lemma NoProfile(allow: bool, seen: Seen)
    requires allow ==> !seen.already
    ensures Told(3, allow, seen, [], Verdict(seen.already, seen.unsupported, seen.error))
  {
    var none: Trace := [];
    assert none == none + none && !SomeKept(none) && !SomeError(none);
  }

  lemma {:induction false} FromProfile(i: nat, allow: bool, seen: Seen, t: Trace, r: ConnectResult)
    requires i <= 3 && ConnectFrom(i, allow, seen.already, seen.unsupported, seen.error, t, r)
    requires allow ==> !seen.already
    ensures Told(i, allow, seen, t, r.outcome)
    decreases 3 - i
  {
    if i == 3 {
      NoProfile(allow, seen);
    } else {
      HeadAndTail(t);
      match Classify(t[0].rc) {
        case Changed =>
          assert t == [t[0]];
          LastProfile(i, allow, seen, t[0]);
        case NotSupported => NextProfileTold(i, allow, seen, seen.(unsupported := true), t, r);
        case AlreadyInState =>
          if allow {
            ToggleIsTold(ORDER[i], t[1..], r);
            ToggledProfile(i, seen, t[0], t[1..], r.outcome);
          } else {
            NextProfileTold(i, allow, seen, seen.(already := true), t, r);
          }
        case Error => NextProfileTold(i, allow, seen, seen.(error := true), t, r);
      }
    }
  }

  lemma OrderInFront(i: nat, s: IoStep, asks: Trace)
    requires i < 3 && InOrder(i + 1, asks) && Enables(s) && s.profile == [A2dp, Hfp, Avrcp][i]
    ensures InOrder(i, [s] + asks)
  {
    var t := [s] + asks;
    forall k | 0 <= k < |t| ensures Enables(t[k]) && t[k].profile == [A2dp, Hfp, Avrcp][i + k] {
      if k > 0 {
        assert t[k] == asks[k - 1] && [A2dp, Hfp, Avrcp][i + k] == [A2dp, Hfp, Avrcp][i + 1 + (k - 1)];
      }
    }
  }

  // One more profile in front.
  lemma CourseInFront(i: nat, allow: bool, s: IoStep, rest: Trace)
    requires i < 3 && Course(i + 1, allow, rest) && GoesOn(allow, s)
    requires Enables(s) && s.profile == [A2dp, Hfp, Avrcp][i]
    ensures Course(i, allow, [s] + rest)
    ensures Asks([s] + rest) == [s] + Asks(rest) && Toggle([s] + rest) == Toggle(rest)
  {
    var t, asks := [s] + rest, Asks(rest);
    assert t[1..] == rest && Asks(t) == [s] + asks;
    assert t == Asks(t) + Toggle(t);
    OrderInFront(i, s, asks);
    assert forall k :: 1 <= k < |Asks(t)| ==> Asks(t)[k] == asks[k - 1];
  }

  lemma ToldInFront(seen: Seen, next: Seen, s: IoStep, rest: Trace, o: Outcome)
    requires s.SetState? && s.rc != 0 && PlainTold(next, rest, o)
    requires next == if Kept(s.rc) then seen.(already := true)
                     else if NotOffered(s.rc) then seen.(unsupported := true) else seen.(error := true)
    ensures PlainTold(seen, [s] + rest, o)
  {
    InFront(s, rest);
  }

  lemma {:induction false} NextProfileTold(i: nat, allow: bool, seen: Seen, next: Seen, t: Trace, r: ConnectResult)
    requires i < 3 && t != [] && Enables(t[0]) && t[0].profile == ORDER[i] && (allow ==> !next.already)
    requires ConnectFrom(i + 1, allow, next.already, next.unsupported, next.error, t[1..], r)
    requires GoesOn(allow, t[0])
    requires next == if Kept(t[0].rc) then seen.(already := true)
                     else if NotOffered(t[0].rc) then seen.(unsupported := true) else seen.(error := true)
    ensures Told(i, allow, seen, t, r.outcome)
    decreases 3 - i, 0
  {
    FromProfile(i + 1, allow, next, t[1..], r);
    HeadAndTail(t);
    CourseInFront(i, allow, t[0], t[1..]);
    if Toggle(t) == [] {
      ToldInFront(seen, next, t[0], t[1..], r.outcome);
    }
  }

  lemma InFront(s: IoStep, rest: Trace)
    requires s.SetState?
    ensures SomeKept([s] + rest) <==> Kept(s.rc) || SomeKept(rest)
    ensures SomeError([s] + rest) <==> (!There(s.rc) && !NotOffered(s.rc)) || SomeError(rest)
  {
    var t := [s] + rest;
    assert forall x :: x in t <==> x == s || x in rest;
  }

  const NONE: Seen := Seen(false, false, false)

  /** THE PASS BY ITS CODES: it asks A2DP, HFP and AVRCP in this order until one answers
      0, or -- if it may toggle -- until one says that it is enabled already, and toggles
      exactly that one; what it reports follows from the codes. */
  lemma ConnectCourse(allow: bool, t: Trace, r: ConnectResult)
    requires ConnectTrace(allow, t, r)
    ensures Told(0, allow, NONE, t, r.outcome)
  {
    FromProfile(0, allow, NONE, t, r);
  }

  lemma {:induction false} Parts(t: Trace)
    ensures Toggle(t) == [] <==> !Toggles(t)
    ensures Toggle(t) == [] ==> Asks(t) == t
    ensures forall s <- Toggle(t) :: s in t
    ensures forall s <- t :: s in Asks(t) || s in Toggle(t)
    decreases |t|
  {
    if t != [] && !t[0].Arm? {
      HeadAndTail(t);
      Parts(t[1..]);
      assert Toggles(t) <==> Toggles(t[1..]);
    } else if t != [] {
      assert t[0] in t;
    }
  }

  // A pass without a toggle, as far as its reports go.
  lemma PlainParts(allow: bool, t: Trace, o: Outcome)
    requires Told(0, allow, NONE, t, o)
    ensures !Toggles(t) <==> Toggle(t) == []
    ensures !Toggles(t) ==>
              t != [] && (forall s <- t :: Enables(s)) && (allow ==> !SomeKept(t)) && PlainTold(NONE, t, o)
  {
    Parts(t);
    assert !Toggles(t) && allow ==> forall k :: 0 <= k < |t| - 1 ==> GoesOn(allow, t[k]);
  }

  // A pass with one: what the enables in front say no longer matters.
  lemma ToggledParts(allow: bool, t: Trace, o: Outcome)
    requires Told(0, allow, NONE, t, o) && Toggles(t)
    ensures allow && Toggle(t) != [] && ToggleTold(Toggle(t)[0].profile, Toggle(t), o)
    ensures forall s <- t :: !Enables(s) ==> s in Toggle(t)
    ensures forall s <- Toggle(t) :: s in t
  {
    Parts(t);
    assert forall s <- Asks(t) :: Enables(s);
  }

  lemma ConnectedTold(allow: bool, t: Trace, o: Outcome)
    requires Told(0, allow, NONE, t, o)
    ensures o == Connected <==> t != [] && Enables(t[|t| - 1]) && t[|t| - 1].rc == 0 && !Toggles(t)
  {
    PlainParts(allow, t, o);
    if Toggles(t) {
      ToggledParts(allow, t, o);
    } else {
      assert t[|t| - 1] in t;
    }
  }

  /** `Connected` exactly when the last step is an enable that answered 0 and no toggle
      began. */
  lemma ConnectedIff(allow: bool, t: Trace, r: ConnectResult)
    requires ConnectTrace(allow, t, r)
    ensures r.outcome == Connected <==> t != [] && Enables(t[|t| - 1]) && t[|t| - 1].rc == 0 && !Toggles(t)
  {
    ConnectCourse(allow, t, r);
    ConnectedTold(allow, t, r.outcome);
  }

  predicate OnlyKeptOrAbsent(t: Trace) {
    (forall s <- t :: s.SetState? && (Kept(s.rc) || NotOffered(s.rc))) && SomeKept(t)
  }

  lemma RefusedTold(allow: bool, t: Trace, o: Outcome)
    requires Told(0, allow, NONE, t, o)
    ensures o == Refused <==> !allow && OnlyKeptOrAbsent(t)
  {
    PlainParts(allow, t, o);
    if Toggles(t) {
      ToggledParts(allow, t, o);
      var s :| s in t && s.Arm?;
    } else {
      assert t[|t| - 1] in t;
    }
  }

  /** `Refused` exactly when it may not toggle, every code says "enabled already" or "not
      offered", and at least one the former. */
  lemma RefusedIff(allow: bool, t: Trace, r: ConnectResult)
    requires ConnectTrace(allow, t, r)
    ensures r.outcome == Refused <==> !allow && OnlyKeptOrAbsent(t)
  {
    ConnectCourse(allow, t, r);
    RefusedTold(allow, t, r.outcome);
  }

  predicate AllAbsent(t: Trace) {
    |t| == 3 && forall s <- t :: Enables(s) && NotOffered(s.rc)
  }

  lemma NotFoundTold(allow: bool, t: Trace, o: Outcome)
    requires Told(0, allow, NONE, t, o)
    ensures o == NotFound <==> AllAbsent(t)
  {
    PlainParts(allow, t, o);
    if Toggles(t) {
      ToggledParts(allow, t, o);
      var s :| s in t && s.Arm?;
    } else {
      Parts(t);
      assert t[|t| - 1] in t;
    }
  }

  /** `NotFound` exactly when all three profiles answered 1060. */
  lemma NotFoundIff(allow: bool, t: Trace, r: ConnectResult)
    requires ConnectTrace(allow, t, r)
    ensures r.outcome == NotFound <==> AllAbsent(t)
  {
    ConnectCourse(allow, t, r);
    NotFoundTold(allow, t, r.outcome);
  }

  lemma ToggleOutcomes(allow: bool, t: Trace, o: Outcome)
    requires Told(0, allow, NONE, t, o)
    ensures o == Inert <==> exists s <- t :: Disables(s) && Kept(s.rc)
    ensures o in {Reconnecting, ServiceDebt} <==> Removed(t)
    ensures o == Reconnecting <==> Removed(t) && EndsThere(Toggle(t))
  {
    PlainParts(allow, t, o);
    if Toggles(t) {
      ToggledParts(allow, t, o);
    }
  }

  /** `Inert` exactly when the disable was refused like the enable before it; a driver was
      removed exactly when the disable answered 0, and the last answer says whether it is
      back. */
  lemma ToggledIff(allow: bool, t: Trace, r: ConnectResult)
    requires ConnectTrace(allow, t, r)
    ensures r.outcome == Inert <==> exists s <- t :: Disables(s) && Kept(s.rc)
    ensures r.outcome in {Reconnecting, ServiceDebt} <==> Removed(t)
    ensures r.outcome == Reconnecting <==> Removed(t) && EndsThere(Toggle(t))
  {
    ConnectCourse(allow, t, r);
    ToggleOutcomes(allow, t, r.outcome);
  }

  // What makes a pass report a failure.
  predicate Fails(t: Trace) {
    (exists s <- t :: s.Arm? && !s.ok) || (exists s <- t :: Disables(s) && !There(s.rc))
    || (!Toggles(t) && t != [] && t[|t| - 1].SetState? && t[|t| - 1].rc != 0 && SomeError(t))
  }

  lemma PlainFails(t: Trace, o: Outcome)
    requires !Toggles(t) && t != [] && (forall s <- t :: Enables(s)) && PlainTold(NONE, t, o)
    ensures o == Failed <==> Fails(t)
  {
    assert t[|t| - 1] in t;
  }

  lemma ToggleFails(t: Trace, o: Outcome)
    requires Toggles(t) && Toggle(t) != [] && Toggle(t)[0].Arm? && ToggleTold(Toggle(t)[0].profile, Toggle(t), o)
    requires forall s <- t :: !Enables(s) ==> s in Toggle(t)
    requires forall s <- Toggle(t) :: s in t
    ensures o == Failed <==> Fails(t)
  {
    var toggle := Toggle(t);
    assert toggle[0] in toggle;
    assert forall s <- toggle :: s.Arm? ==> s == toggle[0];
  }

  lemma FailedTold(allow: bool, t: Trace, o: Outcome)
    requires Told(0, allow, NONE, t, o)
    ensures o == Failed <==> Fails(t)
  {
    PlainParts(allow, t, o);
    if Toggles(t) {
      ToggledParts(allow, t, o);
      ToggleFails(t, o);
    } else {
      PlainFails(t, o);
    }
  }

  /** `Failed` exactly when the marker could not be written, a disable was refused for
      another reason, or nothing was done and some enable answered with an error. */
  lemma FailedIff(allow: bool, t: Trace, r: ConnectResult)
    requires ConnectTrace(allow, t, r)
    ensures r.outcome == Failed <==> Fails(t)
  {
    ConnectCourse(allow, t, r);
    FailedTold(allow, t, r.outcome);
  }
}
