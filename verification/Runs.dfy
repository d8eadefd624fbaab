/** Runs of the daemon: which answers of the outside world are possible. */
module Runs {
  import opened Ladder
  import ConnectFsm
  import Debt

  /** The clock never goes back between two readings. */
  predicate InOrder(from: int, c: Times) {
    from <= c.now <= c.repaired <= c.repairedNext <= c.audio <= c.page <= c.paged <= c.reset
    <= c.restarted <= c.cycled <= c.ported <= c.toggled <= c.settled
    <= c.inertForce <= c.inertToggle <= c.inertChurn
  }

  /** What `drive_connect` guarantees about its result. */
  predicate Plausible(allow: bool, r: ConnectFsm.ConnectResult) {
    (r.toggled <==> r.outcome in {ConnectFsm.Reconnecting, ConnectFsm.ServiceDebt})
    && (!allow ==> !r.toggled && r.outcome != ConnectFsm.Inert)
  }

  /** No more than what every connect pass is proved to guarantee is used here. */
  lemma EveryConnectPassIsPlausible(allow: bool, t: ConnectFsm.Trace, r: ConnectFsm.ConnectResult)
    requires ConnectFsm.ConnectTrace(allow, t, r)
    ensures Plausible(allow, r)
  {
    Debt.ConnectReceipts(allow, t, r);
  }

  /** A page keeps a socket only when it reached the peer, and a new socket is
      none that is still open. */
  predicate PossiblePass(s: State, from: int, p: Pass) {
    InOrder(from, p.times) && Plausible(true, p.toggling) && Plausible(false, p.plain)
    && (p.pageHeld.Some? ==> p.pageOutcome == Attempted && p.pageHeld != s.page.held)
  }

  function WakeEnd(t: int, w: Wake): int {
    if w.Device? then w.now else t
  }

  /** The clock after a turn that began at `t`. */
  function End(t: int, turn: Turn): int {
    if turn.poll.Some? then turn.poll.value.pass.times.inertChurn else WakeEnd(t, turn.wake)
  }

  /** `turn` can happen to a daemon in state `s` when the clock last read `t`. */
  predicate Possible(s: State, t: int, turn: Turn) {
    1 <= t <= WakeEnd(t, turn.wake)
    && (turn.poll.Some? ==>
          WakeEnd(t, turn.wake) <= turn.poll.value.up
          && PossiblePass(OnWake(s, turn.wake), turn.poll.value.up, turn.poll.value.pass))
  }

  /** The clock after a run that began at `t`. */
  function RunEnd(t: int, turns: seq<Turn>): int {
    if turns == [] then t else End(RunEnd(t, turns[..|turns| - 1]), turns[|turns| - 1])
  }

  /** `turns` can happen, one after the other, from `s` and clock `t` on. */
  predicate PossibleRun(s: State, t: int, turns: seq<Turn>) {
    1 <= t
    && (turns != [] ==>
          var sofar := turns[..|turns| - 1];
          PossibleRun(s, t, sofar) && Possible(Run(s, sofar), RunEnd(t, sofar), turns[|turns| - 1]))
  }

  /** What a run did, in order. */
  function Did(turns: seq<Turn>): seq<Event> {
    Events(Run(Initial(), turns).log)
  }
}
