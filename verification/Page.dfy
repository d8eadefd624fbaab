/** `page.rs` and `page_fsm.rs`: who owns the socket of an outgoing page. */
module Page {
  import opened Numeric
  import opened Wrappers
  import Ladder

  const INVALID_SOCKET: nat := U64_MAX

  const WSAEWOULDBLOCK: int := 10035
  const WSAENETUNREACH: int := 10051
  const WSAETIMEDOUT: int := 10060
  const WSAECONNREFUSED: int := 10061
  const WSAEHOSTUNREACH: int := 10065

  /** `classify_socket_error`. */
  function ClassifySocketError(code: int): Ladder.PageOutcome {
    if code == 0 || code == WSAECONNREFUSED then Ladder.Attempted
    else if code == WSAETIMEDOUT || code == WSAEHOSTUNREACH || code == WSAENETUNREACH then Ladder.Unreachable
    else Ladder.Failed
  }

  /** `holds_socket`. */
  predicate HoldsSocket(o: Ladder.PageOutcome, code: int) {
    o == Ladder.Attempted && code == 0
  }

  /** What Winsock answers to one page: whether it starts, the new socket if there is
      one, whether it becomes non-blocking, `connect` and its error, and for a connect
      in flight `select`, its error, and what the socket then says. */
  datatype Answers = Answers(
    starts: bool, socket: Option<nat>, nonBlocking: bool, rc: int, err: int,
    ready: int, selectErr: int, excepted: bool, gotError: bool, soError: int)
  {
    /** The connect was tried at all. */
    predicate Tried() {
      socket.Some? && nonBlocking
    }

    /** The connect was left in flight, and the socket then named its error. */
    predicate Named() {
      rc != 0 && err == 10035 && ready > 0 && gotError
    }

    /** The peer accepted: at once, or later with no error and no exception. */
    predicate Connected() {
      Tried() && (rc == 0 || err == 0 || (Named() && soError == 0 && !excepted))
    }

    /** The peer answered, if only by a refusal. */
    predicate Contact() {
      Connected() || (Tried() && rc != 0 && (err == 10061 || (Named() && soError == 10061)))
    }

    /** The peer did not answer, or there is no way to it. */
    predicate Silence() {
      Tried() && rc != 0
      && (err in {10051, 10060, 10065} || (err == 10035 && ready == 0) || (Named() && soError in {10051, 10060, 10065}))
    }
  }

  /** Winsock as this process sees it: the sockets it has open. */
  class Winsock {
    var up: bool
    ghost var starts: nat
    var open: set<nat>

    ghost predicate Valid()
      reads this
    {
      INVALID_SOCKET !in open && (up <==> starts == 1) && starts <= 1
    }

    constructor ()
      ensures Valid() && open == {} && !up
    {
      up, starts, open := false, 0, {};
    }

    /** `WSAStartup`; never undone. Each success is counted. */
    method Startup(a: Answers) returns (ok: bool)
      modifies this`up, this`starts
      ensures ok == a.starts && up == (old(up) || ok) && starts == old(starts) + (if ok then 1 else 0)
    {
      ok := a.starts;
      up := up || ok;
      starts := starts + (if ok then 1 else 0);
    }

    /** A new socket is none that is open, or the call failed. */
    method Socket(a: Answers) returns (s: nat)
      requires Valid() && (a.socket.Some? ==> a.socket.value !in open && a.socket.value != INVALID_SOCKET)
      modifies this`open
      ensures Valid()
      ensures s == if a.socket.Some? then a.socket.value else INVALID_SOCKET
      ensures open == old(open) + if a.socket.Some? then {s} else {}
    {
      s := if a.socket.Some? then a.socket.value else INVALID_SOCKET;
      if a.socket.Some? {
        open := open + {s};
      }
    }

    /** Only an open socket may be closed. */
    method CloseSocket(s: nat)
      requires Valid() && s in open
      modifies this`open
      ensures Valid() && open == old(open) - {s}
    {
      open := open - {s};
    }

    method IoctlNonBlocking(s: nat, a: Answers) returns (ok: bool)
      requires s in open
      ensures ok == a.nonBlocking
    {
      ok := a.nonBlocking;
    }

    /** 0 for a finished connect, else the error code. */
    method ConnectTo(s: nat, a: Answers) returns (rc: int, err: int)
      requires s in open
      ensures rc == a.rc && err == a.err
    {
      rc, err := a.rc, a.err;
    }

    /** `select` and `SO_ERROR` of a pending connect. */
    method Select(s: nat, a: Answers) returns (n: int, excepted: bool, gotError: bool, soError: int, err: int)
      requires s in open
      ensures n == a.ready && excepted == a.excepted && gotError == a.gotError && soError == a.soError
      ensures err == a.selectErr
    {
      n, excepted, gotError, soError, err := a.ready, a.excepted, a.gotError, a.soError, a.selectErr;
    }
  }

  /** `ensure_wsa`: Winsock is started at most once in the life of the process, and
      is up exactly when it was. */
  method EnsureWsa(ws: Winsock, a: Answers) returns (ok: bool)
    requires ws.Valid()
    modifies ws`up, ws`starts
    ensures ws.Valid() && ok == ws.up == (old(ws.up) || a.starts) && (old(ws.up) ==> ws.starts == old(ws.starts))
    ensures ws.starts == if ok then 1 else 0
  {
    if ws.up { return true; }
    ok := ws.Startup(a);
  }

  /** `wait_writable`: the verdict of a connect in flight, and its code. A socket
      that is both excepted and error-free is a failure, never a page. */
  method WaitWritable(ws: Winsock, s: nat, a: Answers) returns (o: Ladder.PageOutcome, code: int)
    requires s in ws.open
    ensures a.ready > 0 && a.gotError && !(a.excepted && a.soError == 0) ==>
              o == ClassifySocketError(a.soError) && code == a.soError
    ensures (a.ready > 0 && (!a.gotError || (a.excepted && a.soError == 0))) || a.ready < 0 ==> o == Ladder.Failed
    ensures a.ready == 0 ==> o == Ladder.Unreachable
  {
    var n, excepted, gotError, soError, err := ws.Select(s, a);
    if n > 0 {
      if !gotError { return Ladder.Failed, err; }
      if excepted && soError == 0 { return Ladder.Failed, -1; }
      return ClassifySocketError(soError), soError;
    }
    if n == 0 { return Ladder.Unreachable, 0; }
    o, code := Ladder.Failed, err;
  }

  /** `connect_one`: a page is contact, silence or a failure exactly as the answers
      say, and the socket is handed out exactly when it is to be kept and really
      connected; on every other path it is closed again. */
  method ConnectOne(ws: Winsock, keep: bool, a: Answers)
    returns (o: Ladder.PageOutcome, code: int, held: Option<nat>)
    requires ws.Valid() && (a.socket.Some? ==> a.socket.value !in ws.open && a.socket.value != INVALID_SOCKET)
    modifies ws`open
    ensures ws.Valid()
    ensures (o == Ladder.Attempted <==> a.Contact()) && (o == Ladder.Unreachable <==> a.Silence())
    ensures held == if keep && a.Connected() then a.socket else None
    ensures ws.open == old(ws.open) + (if held.Some? then {held.value} else {})
  {
    var s := ws.Socket(a);
    if s == INVALID_SOCKET { return Ladder.Failed, -1, None; }
    var nonBlocking := ws.IoctlNonBlocking(s, a);
    if !nonBlocking {
      ws.CloseSocket(s);
      return Ladder.Failed, -1, None;
    }
    var rc, err := ws.ConnectTo(s, a);
    if rc == 0 {
      o, code := Ladder.Attempted, 0;
    } else if err == WSAEWOULDBLOCK {
      o, code := WaitWritable(ws, s, a);
    } else {
      o, code := ClassifySocketError(err), err;
    }
    if keep && HoldsSocket(o, code) {
      held := Some(s);
    } else {
      ws.CloseSocket(s);
      held := None;
    }
  }

  /** `page_hold`: what the ladder may rely on. */
  method PageHold(ws: Winsock, a: Answers) returns (o: Ladder.PageOutcome, held: Option<nat>)
    requires ws.Valid() && (a.socket.Some? ==> a.socket.value !in ws.open && a.socket.value != INVALID_SOCKET)
    modifies ws
    ensures ws.Valid()
    ensures o == Ladder.Attempted <==> ws.up && a.Contact()
    ensures o == Ladder.Unreachable <==> ws.up && a.Silence()
    ensures held == if ws.up && a.Connected() then a.socket else None
    ensures held.Some? ==> o == Ladder.Attempted && held.value !in old(ws.open)
    ensures ws.open == old(ws.open) + (if held.Some? then {held.value} else {})
  {
    var up := EnsureWsa(ws, a);
    if !up { return Ladder.Failed, None; }
    var code;
    o, code, held := ConnectOne(ws, true, a);
  }

  /** A refusal is contact but nothing to hold: of all error codes only 0 both
      counts as an attempted page and leaves a socket. */
  lemma OnlySuccessHolds(code: int)
    ensures HoldsSocket(ClassifySocketError(code), code) <==> code == 0
    ensures ClassifySocketError(code) == Ladder.Attempted <==> code in {0, 10061}
    ensures ClassifySocketError(code) == Ladder.Unreachable <==> code in {10051, 10060, 10065}
  {
  }
}
