/** The protocol leaves a pass no choice: with the same answers there is one legal
    course, so whatever obeys the protocol does what the ladder does. */
module Courses {
  import opened Ladder
  import opened Runs
  import opened Replay
  import opened Protocol
  import opened Wrappers
  import opened Conformance
  import ConnectFsm

  // One event is legal at an open gate, given the answers.
  lemma OneBeforeRungs(c: Scene, h: History, s: State, x: Stage, d: Event, e: Event)
    requires Height(x) >= 8 || x.Checking? || x.Mending? || x.Answering? || x.Opening? || x.Dropping?
    requires LegalAt(h, s, c.p.times.now, x, d) && c.Said(s, x, d)
    requires LegalAt(h, s, c.p.times.now, x, e) && c.Said(s, x, e)
    ensures d == e
  {
    match x
    case Dropping(_) =>
    case Checking =>
    case Repairing =>
    case Mending =>
    case Listening =>
    case Asking =>
    case Paging =>
    case Answering =>
    case Opening(_) =>
    case Arming =>
    case _ =>
  }

  lemma OneBehind(c: Scene, h: History, s: State, x: Stage, d: Event, e: Event)
    requires 1 <= Height(x) <= 7 || x.Unparking? || x.Counting? || x.Closing?
    requires LegalAt(h, s, c.p.times.now, x, d) && c.Said(s, x, d)
    requires LegalAt(h, s, c.p.times.now, x, e) && c.Said(s, x, e)
    ensures d == e
  {
    match x
    case Unparking(_) =>
    case Counting(_) =>
    case Closing =>
    case Scanning =>
    case Freezing =>
    case Restarting =>
    case Cycling =>
    case Porting =>
    case Rehearing =>
    case Connecting =>
    case _ =>
  }

  lemma OneAtGate(c: Scene, h: History, s: State, x: Stage, d: Event, e: Event)
    requires !x.Idle? && !x.Acting? && !x.Concluding?
    requires LegalAt(h, s, c.p.times.now, x, d) && c.Said(s, x, d)
    requires LegalAt(h, s, c.p.times.now, x, e) && c.Said(s, x, e)
    ensures d == e
  {
    hide LegalAt, Scene.Said;
    if 1 <= Height(x) <= 7 || x.Unparking? || x.Counting? || x.Closing? {
      OneBehind(c, h, s, x, d, e);
    } else {
      OneBeforeRungs(c, h, s, x, d, e);
    }
  }

  lemma OneAction(c: Scene, h: History, s: State, rung: Rung, d: Event, e: Event)
    requires !rung.ConnectRung?
    requires LegalAt(h, s, c.p.times.now, Acting(rung), d) && c.Said(s, Acting(rung), d)
    requires LegalAt(h, s, c.p.times.now, Acting(rung), e) && c.Said(s, Acting(rung), e)
    ensures d == e
  {
    match rung
    case PageScanRung =>
    case EarbudRung =>
    case UsbRung =>
    case HubRung =>
  }

  // What a connect pass does, by the toggle's turn and the answer of the stack.
  lemma ConnectKind(c: Scene, h: History, s: State, e: Event)
    requires Plausible(true, c.p.toggling) && Plausible(false, c.p.plain)
    requires LegalAt(h, s, c.p.times.now, Acting(ConnectRung), e) && c.Said(s, Acting(ConnectRung), e)
    ensures var k, due := c.p.times, ToggleDue(s, c.p.times.now);
            e == if due && c.p.toggling.toggled then Toggled(k.now, k.toggled)
                 else if due && c.p.toggling.outcome.Inert? && s.r3.forceAfter == 0 then
                   InertStamp(k.inertToggle, k.inertForce, k.inertChurn)
                 else ConnectDone(k.now, c.p.Connect(due).outcome, k.settled)
  {
    hide ToggleDue;
  }

  lemma OneConnect(c: Scene, h: History, s: State, d: Event, e: Event)
    requires Plausible(true, c.p.toggling) && Plausible(false, c.p.plain)
    requires LegalAt(h, s, c.p.times.now, Acting(ConnectRung), d) && c.Said(s, Acting(ConnectRung), d)
    requires LegalAt(h, s, c.p.times.now, Acting(ConnectRung), e) && c.Said(s, Acting(ConnectRung), e)
    ensures d == e
  {
    hide LegalAt, Scene.Said;
    ConnectKind(c, h, s, d);
    ConnectKind(c, h, s, e);
  }

  lemma OneEnd(c: Scene, h: History, s: State, toggled: bool, d: Event, e: Event)
    requires LegalAt(h, s, c.p.times.now, Concluding(toggled), d) && c.Said(s, Concluding(toggled), d)
    requires LegalAt(h, s, c.p.times.now, Concluding(toggled), e) && c.Said(s, Concluding(toggled), e)
    ensures d == e
  {
  }

  lemma OneEvent(c: Scene, h: History, s: State, x: Stage, d: Event, e: Event)
    requires !x.Idle? && Plausible(true, c.p.toggling) && Plausible(false, c.p.plain)
    requires LegalAt(h, s, c.p.times.now, x, d) && c.Said(s, x, d)
    requires LegalAt(h, s, c.p.times.now, x, e) && c.Said(s, x, e)
    ensures d == e
  {
    hide LegalAt, Scene.Said, Plausible;
    if x == Acting(ConnectRung) {
      OneConnect(c, h, s, d, e);
    } else if x.Acting? {
      OneAction(c, h, s, x.rung, d, e);
    } else if x.Concluding? {
      OneEnd(c, h, s, x.toggled, d, e);
    } else {
      OneAtGate(c, h, s, x, d, e);
    }
  }

  // -------------------------------------------------------------------------
  // One course
  // -------------------------------------------------------------------------

  /** `h` is the course of a pass so far: legal events that show its answers, the
      first of them its beginning. */
  predicate Course(c: Scene, h: History) {
    h == c.m
    || (h.Then? && Course(c, h.before) && Legal(h.before, h.last)
        && c.Said(StateOf(h.before), Now(h.before), h.last) && (h.last.Began? <==> h.before == c.m))
  }

  lemma {:induction false} Longer(c: Scene, h: History)
    requires Course(c, h)
    ensures |Events(h)| >= |Events(c.m)| && (h != c.m ==> |Events(h)| > |Events(c.m)| && PassOf(h) == c.At())
  {
    hide Legal, Now;
    if h != c.m {
      Longer(c, h.before);
    }
  }

  lemma {:induction false} Before(c: Scene, h: History, n: nat)
    requires Course(c, h) && |Events(c.m)| <= n < |Events(h)|
    ensures var g, e := Upto(h, n), Events(h)[n];
            Course(c, g) && Upto(h, n + 1) == Then(g, e) && Legal(g, e) && c.Said(StateOf(g), Now(g), e)
            && (e.Began? <==> g == c.m)
    decreases h
  {
    hide Legal, Now;
    Longer(c, h.before);
    if n < |Events(h.before)| {
      Before(c, h.before, n);
    }
  }

  // Between passes only the beginning of this one is legal and told.
  lemma OnlyBegins(c: Scene, h: History, s: State, now: int, e: Event)
    requires LegalAt(h, s, now, Idle, e) && c.Said(s, Idle, e)
    ensures e == Began(c.p.times.now, c.p.admin, c.connected)
  {
  }

  lemma Next(c: Scene, h: History, d: Event, e: Event)
    requires Plausible(true, c.p.toggling) && Plausible(false, c.p.plain)
    requires Course(c, h)
    requires Legal(h, d) && c.Said(StateOf(h), Now(h), d) && (d.Began? <==> h == c.m)
    requires Legal(h, e) && c.Said(StateOf(h), Now(h), e) && (e.Began? <==> h == c.m)
    ensures d == e && (Now(h).Idle? ==> h == c.m)
  {
    hide LegalAt, Now, Scene.Said, StateOf, Plausible;
    Longer(c, h);
    if Now(h).Idle? {
      OnlyBegins(c, h, StateOf(h), PassOf(h).now, d);
      OnlyBegins(c, h, StateOf(h), PassOf(h).now, e);
    } else if h == c.m {
      BeginsIdle(c, h, StateOf(h), PassOf(h).now, Now(h), d);
    } else {
      OneEvent(c, h, StateOf(h), Now(h), d, e);
    }
  }

  lemma BeginsIdle(c: Scene, h: History, s: State, now: int, x: Stage, e: Event)
    requires LegalAt(h, s, now, x, e) && e.Began?
    ensures x.Idle?
  {
  }

  lemma {:induction false} Lockstep(c: Scene, a: History, b: History)
    requires Plausible(true, c.p.toggling) && Plausible(false, c.p.plain)
    requires Course(c, a) && Course(c, b) && |Events(a)| <= |Events(b)|
    ensures Upto(b, |Events(a)|) == a
    decreases a
  {
    hide Legal, Now, Scene.Said;
    if a == c.m {
      FromThere(c, b);
    } else {
      var n := |Events(a.before)|;
      Longer(c, a.before);
      Lockstep(c, a.before, b);
      Before(c, b, n);
      Next(c, a.before, a.last, Events(b)[n]);
    }
  }

  lemma {:induction false} FromThere(c: Scene, h: History)
    requires Course(c, h)
    ensures |Events(c.m)| <= |Events(h)| && Upto(h, |Events(c.m)|) == c.m
  {
    hide Legal, Now, Scene.Said;
    if h != c.m {
      Longer(c, h.before);
      FromThere(c, h.before);
    }
  }

  /** ONE COURSE: two courses of a pass that owe nothing any more are the same. */
  lemma OneCourse(c: Scene, a: History, b: History)
    requires Plausible(true, c.p.toggling) && Plausible(false, c.p.plain)
    requires Course(c, a) && a != c.m && Now(a) == Idle
    requires Course(c, b) && b != c.m && Now(b) == Idle
    ensures a == b
  {
    hide Legal, Now, Scene.Said;
    var (short, long) := if |Events(a)| <= |Events(b)| then (a, b) else (b, a);
    Lockstep(c, short, long);
    if |Events(short)| < |Events(long)| {
      Longer(c, short);
      Before(c, long, |Events(short)|);
      Next(c, short, Events(long)[|Events(short)|], Events(long)[|Events(short)|]);
    }
  }

  // -------------------------------------------------------------------------
  // The ladder's
  // -------------------------------------------------------------------------

  lemma {:induction false} IsCourse(c: Scene, h: History, start: int)
    requires Now(c.m) == Idle && Extends(c.m, h, start) && c.Tells(h)
    ensures h != c.m ==> TallyOf(h).passes > TallyOf(c.m).passes
    ensures TallyOf(h).passes <= TallyOf(c.m).passes + 1 ==> Course(c, h)
  {
    hide LegalAt, Now, Scene.Said;
    if h != c.m {
      IsCourse(c, h.before, start);
      if h.before == c.m {
        OnlyBegins(c, c.m, StateOf(c.m), PassOf(c.m).now, h.last);
      }
    }
  }

  /** A PASS IS DETERMINED BY THE PROTOCOL: from any state a run may be in, whatever
      legal course shows the answers of the pass and owes nothing any more is the one
      that `recover_link` takes. */
  lemma PassIsDetermined(s: State, p: Pass, connected: bool, t: int, a: History)
    requires Rests(Start, 1, s, t) && MayBegin(s.log, connected) && 1 <= t && InOrder(t, p.times)
    requires Plausible(true, p.toggling) && Plausible(false, p.plain)
    requires p.pageHeld.Some? ==> p.pageHeld != s.page.held
    requires a != s.log && Now(a) == Idle && Course(Scene(s.log, t, s.log, p, connected), a)
    ensures a == RecoverLink(s, p, connected).log
  {
    hide LegalAt, Now, RecoverLink, Scene.Said, Course;
    var c := Scene(s.log, t, s.log, p, connected);
    RecoverObeys(c, s, t);
    var h := RecoverLink(s, p, connected).log;
    IsCourse(c, h, t);
    OneCourse(c, a, h);
  }
}
