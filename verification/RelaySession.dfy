/**
 One relayed session: the visitor's and the provider's record for one uuid, the coroutines that act
 on them, and the frames of that uuid in flight.  Each action is the code between two `co_await`s.
 */
module RelaySession {
  import opened Octet
  import opened Options
  import opened Sequences

  /** The frames that concern one session. */
  datatype Msg = New | Ok | Err | Data(payload: seq<Byte>) | Eof | Close

  /**
   Where a session's own coroutine is suspended.  `Sending` waits inside `aconn_write` before the frame
   is on the link, `Sent` after it; `Dialing` and `Draining` are the provider's connect and drain.
   */
  datatype Pump = Idle | Sending(m: Msg) | Sent(m: Msg) | Dialing | Draining | Reading | Done

  /** The visitor's reader after a failed client write, around its `SESSION_CLOSE`. */
  datatype Failing = Calm | Telling | Told

  /** The flags that both nodes keep for a session. */
  datatype Ends = Ends(hcr: bool, hcs: bool, closed: bool)   // half_close_recv, half_close_send, closed

  /** The socket to the client or to the remote; `shutAt` is what had been written when it was shut. */
  datatype Sock = Sock(open: bool, broken: bool, shut: bool, shutAt: nat)

  /** The bytes read from a socket, written to it, and accepted for it but dropped. */
  datatype Flow = Flow(read: seq<Byte>, wrote: seq<Byte>, lost: seq<Byte>)

  /** What has happened so far: a DATA_EOF frame was handled, some error path was taken. */
  datatype Past = Past(gotEof: bool, fault: bool)

  /** `ClientSession` and its pump; `listed` means it is in the session table. */
  datatype BSess = BSess(created: bool, listed: bool, ends: Ends, pump: Pump, failing: Failing,
                         sock: Sock, io: Flow, past: Past)

  datatype Dial = Dial(connecting: bool, connected: bool)

  /**
   Two things that can go wrong in order: DATA was written directly while older DATA was undrained, and
   the remote's end of file came before the client's DATA_EOF.
   */
  datatype Race = Race(overtaken: bool, earlyEof: bool)

  /** The provider's `SessionState` and its coroutine; `buffer` is the unwritten part of arrival_buffer. */
  datatype CSess = CSess(created: bool, listed: bool, dial: Dial, ends: Ends, pump: Pump, buffer: seq<seq<Byte>>,
                         sock: Sock, io: Flow, past: Past, race: Race)

  const OPEN := Sock(true, false, false, 0)
  const NO_SOCK := Sock(false, false, false, 0)
  const NO_FLOW := Flow([], [], [])
  const NO_ENDS := Ends(false, false, false)
  const NO_PAST := Past(false, false)

  const FRESH_B := BSess(false, false, NO_ENDS, Idle, Calm, NO_SOCK, NO_FLOW, NO_PAST)

  const FRESH_C := CSess(false, false, Dial(false, false), NO_ENDS, Idle, [], NO_SOCK, NO_FLOW, NO_PAST, Race(false, false))

  function Payload(m: Msg): seq<Byte> {
    if m.Data? then m.payload else []
  }

  function Shut(sock: Sock, io: Flow): Sock {
    sock.(shut := true, shutAt := |io.wrote|)
  }

  function Write(io: Flow, p: seq<Byte>): Flow {
    io.(wrote := io.wrote + p)
  }

  function Lose(io: Flow, p: seq<Byte>): Flow {
    io.(lost := io.lost + p)
  }

  function Faulty(past: Past): Past {
    past.(fault := true)
  }

  // ----- visitor -----

  datatype BAct =
    | Accept | Append | Resume
    | BRead(bytes: seq<Byte>) | BReadEof | BReadErr
    | FailAppend | FailResume

  /** The pump leaves its loop: a closed session is erased. */
  function BExit(s: BSess, closed: bool): BSess {
    s.(pump := Done, ends := s.ends.(closed := closed), listed := s.listed && !closed)
  }

  function BTop(s: BSess): BSess {
    if s.ends.closed then BExit(s, true) else s.(pump := Reading)
  }

  /** After a frame is on the link. */
  function BResumed(s: BSess, m: Msg): BSess {
    match m
    case Eof => BExit(s, s.ends.closed || s.ends.hcr)
    case Close => BExit(s, true)
    case _ => BTop(s)
  }

  /** The accept loop and the pump of `run_visitor`; the second result is put on the link. */
  function BStep(s: BSess, act: BAct): (BSess, seq<Msg>) {
    match act
    case Accept =>
      if s.created then (s, []) else (FRESH_B.(created := true, listed := true, sock := OPEN, pump := Sending(New)), [])
    case Append =>
      if s.pump.Sending? then (s.(pump := Sent(s.pump.m)), [s.pump.m]) else (s, [])
    case Resume =>
      if s.pump.Sent? then (BResumed(s, s.pump.m), []) else (s, [])
    case BRead(bytes) =>
      if s.pump.Reading? && bytes != []
      then (s.(io := s.io.(read := s.io.read + bytes), pump := Sending(Data(bytes))), [])
      else (s, [])
    case BReadEof =>
      if s.pump.Reading? then (s.(ends := s.ends.(hcs := true), pump := Sending(Eof)), []) else (s, [])
    case BReadErr =>
      if s.pump.Reading? then (s.(past := Faulty(s.past), pump := Sending(Close)), []) else (s, [])
    case FailAppend =>
      if s.failing.Telling? then (s.(failing := Told), [Close]) else (s, [])
    case FailResume =>
      if s.failing.Told? then (BDrop(s.(failing := Calm)), []) else (s, [])
  }

  /** Closed for good: the client socket is closed and the session erased. */
  function BDrop(s: BSess): BSess {
    s.(ends := s.ends.(closed := true), listed := false, sock := s.sock.(open := false), past := Faulty(s.past))
  }

  /** A client write of the visitor's reader; `fail` is how many bytes a failing one got out. */
  function BWrite(s: BSess, p: seq<Byte>, fail: Option<nat>): BSess {
    if p == [] then s
    else if fail.None? then s.(io := Write(s.io, p))
    else
      var k := Min(fail.value, |p|);
      s.(io := Lose(Write(s.io, p[..k]), p[k..]), failing := Telling, past := Faulty(s.past))
  }

  function BEnd(s: BSess): BSess {
    s.(ends := Ends(true, s.ends.hcs, s.ends.closed || s.ends.hcs), sock := Shut(s.sock, s.io), listed := !s.ends.hcs)
  }

  function Noted(past: Past, m: Msg): Past {
    past.(gotEof := past.gotEof || m.Eof?)
  }

  /** The visitor's reader on one frame. */
  function BReceive(s: BSess, m: Msg, fail: Option<nat>): BSess {
    var t := s.(past := Noted(s.past, m));
    if !s.listed then t.(io := Lose(t.io, Payload(m)))
    else
      match m
      case New => t
      case Ok => t
      case Err => BDrop(t)
      case Data(p) => BWrite(t, p, fail)
      case Eof => BEnd(t)
      case Close => BDrop(t)
  }

  /** The reader has stopped: all clients are closed and the table is cleared. */
  function BHalt(s: BSess): BSess {
    if s.created && s.listed then s.(listed := false, sock := s.sock.(open := false), past := Faulty(s.past)) else s
  }

  // ----- provider -----

  datatype CAct =
    | DialOk | DialFail | CAppend | CResume
    | DrainOne | DrainFail(count: nat) | DrainEnd
    | CRead(bytes: seq<Byte>) | CReadEof | CReadErr

  /** The coroutine ends and erases its session whatever its state. */
  function CExit(s: CSess, closed: bool): CSess {
    s.(pump := Done, ends := s.ends.(closed := closed), listed := false)
  }

  function CTop(s: CSess): CSess {
    if s.ends.closed then CExit(s, true) else s.(pump := Reading)
  }

  /** After a frame is on the link. */
  function CResumed(s: CSess, m: Msg): CSess {
    match m
    case Ok => s.(pump := Draining)
    case Eof => CExit(s, s.ends.closed || s.ends.hcr)
    case Data(_) => CTop(s)
    case _ => CExit(s, true)
  }

  /** Whether a write of some bytes to the remote can succeed. */
  predicate Usable(sock: Sock) {
    sock.open && !sock.shut && !sock.broken
  }

  function Broken(sock: Sock): Sock {
    sock.(broken := true)
  }

  /** The write of one buffered payload fails: the exception leaves the coroutine, the session stays. */
  function CDrainFail(s: CSess, count: nat): CSess
    requires s.buffer != []
  {
    var p := s.buffer[0];
    var k := if Usable(s.sock) then Min(count, |p|) else 0;
    var io := Flow(s.io.read, s.io.wrote + p[..k], p[k..] + Flatten(s.buffer[1..]) + s.io.lost);
    s.(io := io, buffer := [], sock := Broken(s.sock), past := Faulty(s.past), pump := Done)
  }

  /** A DATA_EOF that came before the drain was over takes effect after it. */
  function CDrained(s: CSess): CSess {
    CTop(s.(sock := if s.ends.hcr then Shut(s.sock, s.io) else s.sock))
  }

  /** The connect coroutine and the pump of `run_provider`. */
  function CStep(s: CSess, act: CAct): (CSess, seq<Msg>) {
    match act
    case DialOk =>
      if s.pump.Dialing? then (s.(dial := Dial(false, true), sock := OPEN, pump := Sending(Ok)), []) else (s, [])
    case DialFail =>
      if s.pump.Dialing? then (s.(past := Faulty(s.past), pump := Sending(Err)), []) else (s, [])
    case CAppend =>
      if s.pump.Sending? then (s.(pump := Sent(s.pump.m)), [s.pump.m]) else (s, [])
    case CResume =>
      if s.pump.Sent? then (CResumed(s, s.pump.m), []) else (s, [])
    case DrainOne =>
      if s.pump.Draining? && s.buffer != [] && (Usable(s.sock) || s.buffer[0] == [])
      then (s.(io := Write(s.io, s.buffer[0]), buffer := s.buffer[1..]), [])
      else (s, [])
    case DrainFail(count) =>
      if s.pump.Draining? && s.buffer != [] && s.buffer[0] != [] then (CDrainFail(s, count), []) else (s, [])
    case DrainEnd =>
      if s.pump.Draining? && s.buffer == [] then (CDrained(s), []) else (s, [])
    case CRead(bytes) =>
      if s.pump.Reading? && bytes != []
      then (s.(io := s.io.(read := s.io.read + bytes), pump := Sending(Data(bytes))), [])
      else (s, [])
    case CReadEof =>
      if s.pump.Reading?
      then (s.(ends := s.ends.(hcs := true), race := s.race.(earlyEof := s.race.earlyEof || !s.ends.hcr), pump := Sending(Eof)), [])
      else (s, [])
    case CReadErr =>
      if s.pump.Reading? then (s.(past := Faulty(s.past), pump := Sending(Close)), []) else (s, [])
  }

  /**
   A direct write to the remote, or the bytes a failing one got out before the provider ends.  An empty
   write succeeds on any socket.
   */
  function CDirect(s: CSess, p: seq<Byte>, fail: Option<nat>): CSess {
    if p == [] then s
    else if Usable(s.sock) && fail.None? then
      s.(io := Write(s.io, p), race := s.race.(overtaken := s.race.overtaken || s.buffer != []))
    else
      var k := if Usable(s.sock) then Min(fail.value, |p|) else 0;
      s.(io := Lose(Write(s.io, p[..k]), p[k..]), sock := Broken(s.sock), past := Faulty(s.past),
         race := s.race.(overtaken := s.race.overtaken || (k > 0 && s.buffer != [])))
  }

  function CData(s: CSess, p: seq<Byte>, fail: Option<nat>): CSess {
    if !s.listed || s.ends.closed then s.(io := Lose(s.io, p))
    else if s.dial.connected then CDirect(s, p, fail)
    else if s.dial.connecting then s.(buffer := s.buffer + [p])
    else s.(io := Lose(s.io, p))
  }

  function CEnd(s: CSess): CSess {
    if !s.listed then s
    else s.(ends := Ends(true, s.ends.hcs, s.ends.closed || s.ends.hcs), listed := !s.ends.hcs,
            sock := if s.dial.connected then Shut(s.sock, s.io) else s.sock)
  }

  /** The socket is closed if the connection has been made. */
  function Hangup(s: CSess): Sock {
    if s.dial.connected then s.sock.(open := false) else s.sock
  }

  function CClose(s: CSess): CSess {
    if !s.listed then s
    else s.(ends := s.ends.(closed := true), listed := false, sock := Hangup(s), past := Faulty(s.past))
  }

  /** The provider's reader on one frame. */
  function CReceive(s: CSess, m: Msg, fail: Option<nat>): CSess {
    var t := s.(past := Noted(s.past, m));
    match m
    case New => FRESH_C.(created := true, listed := true, dial := Dial(true, false), pump := Dialing)
    case Ok => t
    case Err => t
    case Data(p) => CData(t, p, fail)
    case Eof => CEnd(t)
    case Close => CClose(t)
  }

  /** The provider has ended: all remotes are closed and the table is cleared. */
  function CHalt(s: CSess): CSess {
    if s.created && s.listed then s.(listed := false, sock := Hangup(s), past := Faulty(s.past)) else s
  }

  // ----- the session as a machine -----

  /**
   `up` holds the frames from visitor to provider that have been sent and not handled, in order; a frame
   that a broken link will never deliver stays there for ever.  `down` is the other way.
   */
  datatype Session = Session(b: BSess, c: CSess, up: seq<Msg>, down: seq<Msg>)

  datatype Event =
    | OnB(bAct: BAct) | OnC(cAct: CAct)
    | BTake(fail: Option<nat>) | CTake(fail: Option<nat>)
    | BHalts | CHalts

  function Step(s: Session, event: Event): Session {
    match event
    case OnB(act) => var (b, out) := BStep(s.b, act); s.(b := b, up := s.up + out)
    case OnC(act) => var (c, out) := CStep(s.c, act); s.(c := c, down := s.down + out)
    case BTake(fail) =>
      if s.down != [] && s.b.failing.Calm? then s.(b := BReceive(s.b, s.down[0], fail), down := s.down[1..]) else s
    case CTake(fail) =>
      if s.up != [] then s.(c := CReceive(s.c, s.up[0], fail), up := s.up[1..]) else s
    case BHalts => s.(b := BHalt(s.b))
    case CHalts => s.(c := CHalt(s.c))
  }

  const START := Session(FRESH_B, FRESH_C, [], [])

  function Run(s: Session, events: seq<Event>): Session {
    if events == [] then s
    else Step(Run(s, events[..|events| - 1]), events[|events| - 1])
  }
}
