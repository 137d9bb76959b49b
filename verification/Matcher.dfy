/**
 The matcher: connections register under an id as visitor or provider, two of them make a pair, and two
 pumps move frames between the pair until it is dead.
 */
module Matcher {
  import opened Octet
  import opened Options
  import opened RelayCodec

  type Id = seq<Byte>
  type Conn = nat

  datatype Role = Visitor | Provider

  const SPACE: Byte := 0x20
  const LETTER_B: Byte := 0x42
  const LETTER_C: Byte := 0x43

  const READY_FRAME := Frame(READY, [])
  const EOF_FRAME := Frame(EOF, [])

  function Other(role: Role): Role {
    if role.Visitor? then Provider else Visitor
  }

  function Letter(role: Role): Byte {
    if role.Visitor? then LETTER_B else LETTER_C
  }

  // ----- registration frames -----

  /** What a node sends first. */
  function RegisterBody(id: Id, role: Role): seq<Byte> {
    id + [SPACE] + [Letter(role)]
  }

  /** The index of the first space, or the length if there is none. */
  function FindSpace(body: seq<Byte>): (sp: nat)
    ensures sp <= |body| && SPACE !in body[..sp]
    ensures sp < |body| ==> body[sp] == SPACE
  {
    if body == [] || body[0] == SPACE then 0
    else
      var sp := 1 + FindSpace(body[1..]);
      assert body[..sp] == [body[0]] + body[1..][..sp - 1];
      sp
  }

  /** The matcher's reading of the first frame: everything after the role letter is ignored. */
  function ParseRegister(first: Option<Frame>): Option<(Id, Role)> {
    if first.None? || first.value.kind != REGISTER then None
    else
      var body := first.value.body;
      var sp := FindSpace(body);
      if body == [] || sp == |body| || sp + 2 > |body| then None
      else if body[sp + 1] == LETTER_B then Some((body[..sp], Visitor))
      else if body[sp + 1] == LETTER_C then Some((body[..sp], Provider))
      else None
  }

  lemma FirstSpace(body: seq<Byte>, k: nat)
    requires k < |body| && body[k] == SPACE && SPACE !in body[..k]
    ensures FindSpace(body) == k
  {
    var sp := FindSpace(body);
    assert forall i :: 0 <= i < k ==> body[i] == body[..k][i];
    assert forall i :: 0 <= i < sp ==> body[i] == body[..sp][i];
  }

  /** A node is registered as it asked if and only if its id contains no space. */
  lemma RegisterExact(id: Id, role: Role)
    ensures ParseRegister(Some(Frame(REGISTER, RegisterBody(id, role)))) == Some((id, role)) <==> SPACE !in id
  {
    var body := RegisterBody(id, role);
    assert body[|id|] == SPACE && body[|id| + 1] == Letter(role) && body[..|id|] == id;
    if SPACE !in id {
      FirstSpace(body, |id|);
    }
  }

  /**
   Exactly which first frames register whom: REGISTER frames whose body begins with the id, a space and the
   role's letter, the id having no space; what follows is ignored.
   */
  lemma ParseExact(first: Option<Frame>, id: Id, role: Role)
    ensures ParseRegister(first) == Some((id, role)) <==>
              first.Some? && first.value.kind == REGISTER && SPACE !in id && RegisterBody(id, role) <= first.value.body
  {
    if first.Some? && first.value.kind == REGISTER {
      var body := first.value.body;
      var sp, n := FindSpace(body), |id|;
      if SPACE !in id && RegisterBody(id, role) <= body {
        assert body[..n] == RegisterBody(id, role)[..n] == id;
        assert body[n] == SPACE && body[n + 1] == Letter(role);
        FirstSpace(body, n);
      }
      if ParseRegister(first) == Some((id, role)) {
        assert body[..n + 2] == id + [SPACE] + [Letter(role)];
        assert SPACE !in body[..sp];
      }
    }
  }

  // ----- peers and pairs -----

  /** Where a connection's registration coroutine is: suspended in a write, or finished. */
  datatype Task = Refusing | Waiting | GreetingB | GreetingC | Paired | Over

  /** A connection: whom it registered as, its frames since, in and out, and whether its socket is open. */
  datatype Peer = Peer(home: Option<(Id, Role)>, task: Task, open: bool, heard: seq<Frame>, told: seq<Frame>)

  datatype Pc = Unborn | Reading | Writing(frame: Frame) | Ending | Closing | Finished

  /**
   One `pump_one_way`.  `passed` counts the frames it moved; `ended` says an EOF frame was written,
   `first` that it found the pair alive when it left its loop, `closed` that its closing block completed.
   */
  datatype Pump = Pump(pc: Pc, passed: nat, ended: bool, first: bool, closed: bool)

  const UNBORN := Pump(Unborn, 0, false, false, false)

  /** `up` pumps from the visitor to the provider. */
  datatype Match = Match(b: Option<Conn>, c: Option<Conn>, dead: bool, up: Pump, down: Pump)

  const EMPTY := Match(None, None, false, UNBORN, UNBORN)

  datatype Server = Server(pairs: map<Id, Match>, peers: map<Conn, Peer>)

  const IDLE := Server(map[], map[])

  function Slot(m: Match, role: Role): Option<Conn> {
    if role.Visitor? then m.b else m.c
  }

  function Seat(m: Match, role: Role, k: Conn): Match {
    if role.Visitor? then m.(b := Some(k)) else m.(c := Some(k))
  }

  function PumpOf(m: Match, from: Role): Pump {
    if from.Visitor? then m.up else m.down
  }

  function WithPump(m: Match, from: Role, pump: Pump, dead: bool): Match {
    if from.Visitor? then m.(up := pump, dead := dead) else m.(down := pump, dead := dead)
  }

  // ----- registration -----

  function MatchOf(s: Server, id: Id): Match {
    if id in s.pairs then s.pairs[id] else EMPTY
  }

  /** Connection `k` is accepted and its first frame is read. */
  function Connect(s: Server, k: Conn, first: Option<Frame>): Server {
    if k in s.peers then s
    else
      var home := ParseRegister(first);
      if home.None? then s.(peers := s.peers[k := Peer(None, Over, false, [], [])])
      else
        var (id, role) := home.value;
        var m := MatchOf(s, id);
        if Slot(m, role).Some? then s.(peers := s.peers[k := Peer(None, Refusing, true, [], [])])
        else
          var m' := Seat(m, role, k);
          var task := if m'.b.Some? && m'.c.Some? then GreetingB else Waiting;
          Server(s.pairs[id := m'], s.peers[k := Peer(home, task, true, [], [])])
  }

  function Tell(p: Peer, f: Frame): Peer {
    p.(told := p.told + [f])
  }

  /** The registration coroutine of `k` resumes after its write, which may have failed. */
  function Answer(s: Server, k: Conn, ok: bool): Server {
    if k !in s.peers then s
    else
      var p := s.peers[k];
      if p.task.Refusing? then
        s.(peers := s.peers[k := (if ok then Tell(p, EOF_FRAME) else p).(task := Over, open := false)])
      else if p.home.None? || p.home.value.0 !in s.pairs then s
      else
        var m := s.pairs[p.home.value.0];
        if p.task.GreetingB? && m.b.Some? && m.b.value in s.peers then Greet(s, k, m.b.value, GreetingC, ok)
        else if p.task.GreetingC? && m.c.Some? && m.c.value in s.peers then
          var s' := Greet(s, k, m.c.value, Paired, ok);
          if !ok then s'
          else s'.(pairs := s.pairs[p.home.value.0 := m.(up := UNBORN.(pc := Reading), down := UNBORN.(pc := Reading))])
        else s
  }

  /** READY has been written to `to`, or the failure has ended the coroutine of `k`. */
  function Greet(s: Server, k: Conn, to: Conn, next: Task, ok: bool): Server
    requires k in s.peers && to in s.peers
  {
    if !ok then s.(peers := s.peers[k := s.peers[k].(task := Over)])
    else
      var told := s.peers[to := Tell(s.peers[to], READY_FRAME)];
      s.(peers := told[k := told[k].(task := next)])
  }

  // ----- pumps -----

  /** B sends NEW_SESSION, C receives FORWARD_SESSION; nothing else is changed. */
  function Translate(from: Role, f: Frame): Frame {
    if f.kind == NEW_SESSION && from.Visitor? then f.(kind := FORWARD_SESSION) else f
  }

  /** One pump with what it works on. */
  datatype Lane = Lane(pump: Pump, from: Peer, to: Peer, dead: bool)

  /** The loop is left: the flag `dead` is tested and set, and only the first pump goes on to close. */
  function Leave(l: Lane): Lane {
    l.(pump := l.pump.(pc := if l.dead then Finished else Closing, first := !l.dead), dead := true)
  }

  /** `read_frame` returns. */
  function Hear(l: Lane, f: Option<Frame>): Lane {
    if !l.pump.pc.Reading? then l
    else if f.None? || !l.from.open then Leave(l)
    else
      l.(from := l.from.(heard := l.from.heard + [f.value]),
         pump := l.pump.(pc := if f.value.kind == EOF then Ending else Writing(f.value)))
  }

  /** A write of the pump returns; on a closed socket it can only fail. */
  function Pass(l: Lane, role: Role, may: bool): Lane {
    var ok := may && l.to.open;
    match l.pump.pc
    case Writing(f) =>
      if ok
      then l.(to := Tell(l.to, Translate(role, f)), pump := l.pump.(pc := Reading, passed := l.pump.passed + 1))
      else Leave(l)
    case Ending =>
      if ok then Leave(l.(to := Tell(l.to, EOF_FRAME).(open := false), pump := l.pump.(ended := true))) else Leave(l)
    case Closing =>
      if ok
      then l.(to := Tell(l.to, EOF_FRAME).(open := false), from := l.from.(open := false),
              pump := l.pump.(pc := Finished, ended := true, closed := true))
      else l.(pump := l.pump.(pc := Finished))
    case _ => l
  }

  // ----- the server as a machine -----

  datatype Event =
    | Connects(k: Conn, first: Option<Frame>)
    | Answered(k: Conn, ok: bool)
    | Hears(id: Id, from: Role, frame: Option<Frame>)
    | Passes(id: Id, from: Role, ok: bool)

  predicate Complete(s: Server, id: Id) {
    && id in s.pairs && s.pairs[id].b.Some? && s.pairs[id].c.Some?
    && s.pairs[id].b.value in s.peers && s.pairs[id].c.value in s.peers
  }

  function LaneOf(s: Server, id: Id, from: Role): Lane
    requires Complete(s, id)
  {
    var m := s.pairs[id];
    Lane(PumpOf(m, from), s.peers[Slot(m, from).value], s.peers[Slot(m, Other(from)).value], m.dead)
  }

  function WithLane(s: Server, id: Id, from: Role, l: Lane): Server
    requires Complete(s, id)
  {
    var m := s.pairs[id];
    Server(s.pairs[id := WithPump(m, from, l.pump, l.dead)],
           s.peers[Slot(m, from).value := l.from][Slot(m, Other(from)).value := l.to])
  }

  function Step(s: Server, event: Event): Server {
    match event
    case Connects(k, first) => Connect(s, k, first)
    case Answered(k, ok) => Answer(s, k, ok)
    case Hears(id, from, frame) =>
      if Complete(s, id) then WithLane(s, id, from, Hear(LaneOf(s, id, from), frame)) else s
    case Passes(id, from, ok) =>
      if Complete(s, id) then WithLane(s, id, from, Pass(LaneOf(s, id, from), from, ok)) else s
  }

  function Run(s: Server, events: seq<Event>): Server {
    if events == [] then s else Step(Run(s, events[..|events| - 1]), events[|events| - 1])
  }
}
