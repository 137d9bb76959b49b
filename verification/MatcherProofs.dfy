/** What the matcher keeps in every run: who is paired with whom, and what each connection is sent. */
module MatcherProofs {
  import opened Options
  import opened RelayCodec
  import opened Matcher

  // ----- one pump -----

  function Image(from: Role, frames: seq<Frame>): seq<Frame> {
    seq(|frames|, i requires 0 <= i < |frames| => Translate(from, frames[i]))
  }

  ghost predicate NoEof(frames: seq<Frame>) {
    forall f | f in frames :: f.kind != EOF
  }

  function Final(pump: Pump): seq<Frame> {
    if pump.ended then [EOF_FRAME] else []
  }

  /** What a pump has taken from its side and not passed on. */
  function Held(pump: Pump): seq<Frame> {
    match pump.pc
    case Writing(f) => [f]
    case _ => []
  }

  /**
   The stream of one pump: READY, then the image of the first `passed` frames read, then at most one EOF.
   A pump in its loop has passed all it read except the frame in its hands.
   */
  ghost predicate Stream(pump: Pump, from: Role, heard: seq<Frame>, told: seq<Frame>) {
    && pump.passed <= |heard|
    && told == [READY_FRAME] + Image(from, heard[..pump.passed]) + Final(pump)
    && NoEof(heard[..pump.passed])
    && (pump.pc.Reading? ==> heard[pump.passed..] == [] && !pump.ended)
    && (pump.pc.Writing? ==> heard[pump.passed..] == [pump.pc.frame] && pump.pc.frame.kind != EOF && !pump.ended)
    && (pump.pc.Ending? ==> |heard| == pump.passed + 1 && heard[pump.passed].kind == EOF && !pump.ended)
  }

  /** How a pump stands to the flag `dead` and to its closing block. */
  ghost predicate Closer(pump: Pump, dead: bool) {
    && (pump.pc.Closing? || pump.pc.Finished? ==> dead)
    && (pump.first ==> pump.pc.Closing? || pump.pc.Finished?)
    && (pump.pc.Closing? ==> pump.first && !pump.closed)
    && (pump.closed ==> pump.first && pump.ended && pump.pc.Finished?)
    && !pump.pc.Unborn?
  }

  lemma ImageSnoc(from: Role, heard: seq<Frame>, n: nat)
    requires n < |heard|
    ensures Image(from, heard[..n + 1]) == Image(from, heard[..n]) + [Translate(from, heard[n])]
  {
  }

  lemma HearStream(l: Lane, from: Role, f: Option<Frame>)
    requires Stream(l.pump, from, l.from.heard, l.to.told)
    ensures var l' := Hear(l, f); Stream(l'.pump, from, l'.from.heard, l'.to.told)
  {
    var l' := Hear(l, f);
    assert l'.from.heard[..l.pump.passed] == l.from.heard[..l.pump.passed];
  }

  lemma PassStream(l: Lane, from: Role, ok: bool)
    requires Stream(l.pump, from, l.from.heard, l.to.told)
    requires l.pump.pc.Closing? && l.pump.ended ==> !l.to.open
    ensures var l' := Pass(l, from, ok); Stream(l'.pump, from, l'.from.heard, l'.to.told)
  {
    hide Image;
    var n := l.pump.passed;
    if l.pump.pc.Writing? && ok && l.to.open {
      assert l.from.heard[n] == l.from.heard[n..][0];
      ImageSnoc(from, l.from.heard, n);
      assert l.from.heard[..n + 1] == l.from.heard[..n] + [l.from.heard[n]];
      Append([READY_FRAME], Image(from, l.from.heard[..n]), Translate(from, l.from.heard[n]));
    } else {
      Append([READY_FRAME], Image(from, l.from.heard[..n]), EOF_FRAME);
    }
  }

  lemma Append(a: seq<Frame>, b: seq<Frame>, f: Frame)
    ensures (a + b + []) + [f] == a + (b + [f]) + []
    ensures (a + b + []) + [f] == a + b + [f]
  {
  }

  /** The sockets that a pump's steps leave open, in terms of what both pumps have done. */
  ghost predicate Doors(b: Peer, c: Peer, up: Pump, down: Pump) {
    && (b.open <==> !down.ended && !up.closed)
    && (c.open <==> !up.ended && !down.closed)
  }

  // ----- one pair -----

  /** A pair whose greeting is not over: how far `told` has come. */
  ghost predicate Greeted(task: Task, b: Peer, c: Peer) {
    && b.heard == [] && c.heard == [] && b.open && c.open
    && match task
       case GreetingB => b.told == [] && c.told == []
       case GreetingC => b.told == [READY_FRAME] && c.told == []
       case Over => (b.told == [] || b.told == [READY_FRAME]) && c.told == []
       case _ => false
  }

  ghost predicate Flowing(m: Match, b: Peer, c: Peer) {
    && Stream(m.up, Visitor, b.heard, c.told) && Stream(m.down, Provider, c.heard, b.told)
    && Closer(m.up, m.dead) && Closer(m.down, m.dead)
    && (m.dead <==> m.up.first || m.down.first) && !(m.up.first && m.down.first)
    && Doors(b, c, m.up, m.down)
  }

  /** Exactly one of the two connections of a full pair runs the greeting; the other has finished. */
  function Greeter(b: Peer, c: Peer): Task {
    if b.task.Waiting? then c.task else b.task
  }

  ghost predicate PairOk(m: Match, b: Peer, c: Peer) {
    && (b.task.Waiting? <==> !c.task.Waiting?)
    && if Greeter(b, c).Paired? then Flowing(m, b, c)
       else Greeted(Greeter(b, c), b, c) && m.up == UNBORN && m.down == UNBORN && !m.dead
  }

  ghost predicate HalfOk(m: Match, p: Peer) {
    && p.task.Waiting? && p.open && p.heard == [] && p.told == []
    && m.up == UNBORN && m.down == UNBORN && !m.dead
  }

  // ----- the whole server -----

  ghost predicate Seated(s: Server, id: Id, role: Role) {
    id in s.pairs && Slot(s.pairs[id], role).Some? ==>
      var k := Slot(s.pairs[id], role).value;
      k in s.peers && s.peers[k].home == Some((id, role))
  }

  ghost predicate Homed(s: Server, k: Conn) {
    k in s.peers ==>
      match s.peers[k].home
      case None => (s.peers[k].task.Refusing? || s.peers[k].task.Over?) && s.peers[k].heard == []
      case Some((id, role)) => id in s.pairs && Slot(s.pairs[id], role) == Some(k) && !s.peers[k].task.Refusing?
  }

  /** What holds of the pair `id`. */
  ghost predicate Ok(s: Server, id: Id) {
    id in s.pairs ==>
      && Seated(s, id, Visitor) && Seated(s, id, Provider)
      && var m := s.pairs[id];
         if m.b.Some? && m.c.Some? then PairOk(m, s.peers[m.b.value], s.peers[m.c.value])
         else if m.b.Some? then HalfOk(m, s.peers[m.b.value])
         else if m.c.Some? then HalfOk(m, s.peers[m.c.value])
         else false
  }

  ghost predicate Inv(s: Server) {
    && (forall id :: Ok(s, id))
    && (forall k :: Homed(s, k))
  }

  // ----- the pumps keep it -----

  ghost predicate SamePeer(p: Peer, p': Peer) {
    p'.home == p.home && p'.task == p.task
  }

  /** A pump sees the pair from its own side. */
  ghost predicate FlowingFrom(l: Lane, from: Role, back: Pump) {
    && Stream(l.pump, from, l.from.heard, l.to.told) && Stream(back, Other(from), l.to.heard, l.from.told)
    && Closer(l.pump, l.dead) && Closer(back, l.dead)
    && (l.dead <==> l.pump.first || back.first) && !(l.pump.first && back.first)
    && (l.from.open <==> !back.ended && !l.pump.closed)
    && (l.to.open <==> !l.pump.ended && !back.closed)
  }

  lemma HearFlowing(l: Lane, from: Role, back: Pump, f: Option<Frame>)
    requires FlowingFrom(l, from, back)
    ensures var l' := Hear(l, f); FlowingFrom(l', from, back) && SamePeer(l.from, l'.from) && SamePeer(l.to, l'.to)
  {
    hide Stream;
    HearStream(l, from, f);
    HearBack(l, from, back, f);
  }

  lemma HearBack(l: Lane, from: Role, back: Pump, f: Option<Frame>)
    requires Stream(back, Other(from), l.to.heard, l.from.told)
    ensures var l' := Hear(l, f); Stream(back, Other(from), l'.to.heard, l'.from.told)
  {
    hide Stream;
  }

  lemma PassFlowing(l: Lane, from: Role, back: Pump, ok: bool)
    requires FlowingFrom(l, from, back)
    ensures var l' := Pass(l, from, ok); FlowingFrom(l', from, back) && SamePeer(l.from, l'.from) && SamePeer(l.to, l'.to)
  {
    PassStream(l, from, ok);
    PassBack(l, from, back, ok);
    LoopNotEnded(l.pump, from, l.from.heard, l.to.told);
    hide Stream;
  }

  lemma LoopNotEnded(pump: Pump, from: Role, heard: seq<Frame>, told: seq<Frame>)
    requires Stream(pump, from, heard, told)
    ensures pump.pc.Reading? || pump.pc.Writing? || pump.pc.Ending? ==> !pump.ended
  {
  }

  lemma PassBack(l: Lane, from: Role, back: Pump, ok: bool)
    requires Stream(back, Other(from), l.to.heard, l.from.told)
    ensures var l' := Pass(l, from, ok); Stream(back, Other(from), l'.to.heard, l'.from.told)
  {
    hide Stream;
  }

  /** A pump that has not been started does nothing. */
  lemma UnbornRests(l: Lane, from: Role, f: Option<Frame>, ok: bool)
    requires l.pump == UNBORN
    ensures Hear(l, f) == l && Pass(l, from, ok) == l
  {
  }

  lemma OtherOk(s: Server, s': Server, id: Id)
    requires Ok(s, id)
    requires id in s.pairs <==> id in s'.pairs
    requires id in s.pairs ==> s'.pairs[id] == s.pairs[id]
    requires forall k, r :: k in s.peers && s.peers[k].home == Some((id, r)) ==> k in s'.peers && s'.peers[k] == s.peers[k]
    ensures Ok(s', id)
  {
    hide PairOk, HalfOk;
  }

  /** A step of a pump of pair `id` that keeps the pair in order keeps everything in order. */
  lemma LaneKeeps(s: Server, id: Id, from: Role, l: Lane)
    requires Inv(s) && Complete(s, id)
    requires SamePeer(LaneOf(s, id, from).from, l.from) && SamePeer(LaneOf(s, id, from).to, l.to)
    requires Ok(WithLane(s, id, from, l), id)
    ensures Inv(WithLane(s, id, from, l))
  {
    hide PairOk, HalfOk;
    var s' := WithLane(s, id, from, l);
    assert Ok(s, id);
    forall id' | id' != id ensures Ok(s', id') {
      assert Ok(s, id');
      OtherOk(s, s', id');
    }
    forall k ensures Homed(s', k) {
      assert Homed(s, k);
    }
  }

  lemma FlowingSides(m: Match, b: Peer, c: Peer)
    ensures Flowing(m, b, c) <==> FlowingFrom(Lane(m.up, b, c, m.dead), Visitor, m.down)
    ensures Flowing(m, b, c) <==> FlowingFrom(Lane(m.down, c, b, m.dead), Provider, m.up)
  {
    hide Stream, Closer;
  }

  /** Both kinds of pump step, on one pair. */
  lemma PumpPairOk(m: Match, b: Peer, c: Peer, from: Role, f: Option<Frame>, ok: bool, hears: bool)
    requires PairOk(m, b, c)
    ensures var l := if from.Visitor? then Lane(m.up, b, c, m.dead) else Lane(m.down, c, b, m.dead);
            var l' := if hears then Hear(l, f) else Pass(l, from, ok);
            var m' := WithPump(m, from, l'.pump, l'.dead);
            && SamePeer(l.from, l'.from) && SamePeer(l.to, l'.to)
            && PairOk(m', if from.Visitor? then l'.from else l'.to, if from.Visitor? then l'.to else l'.from)
  {
    hide Stream, Closer, Hear, Pass, FlowingFrom, Flowing, Greeted;
    var l := if from.Visitor? then Lane(m.up, b, c, m.dead) else Lane(m.down, c, b, m.dead);
    var back := PumpOf(m, Other(from));
    var l' := if hears then Hear(l, f) else Pass(l, from, ok);
    var m' := WithPump(m, from, l'.pump, l'.dead);
    if Greeter(b, c).Paired? {
      FlowingSides(m, b, c);
      HearFlowing(l, from, back, f);
      PassFlowing(l, from, back, ok);
      FlowingSides(m', if from.Visitor? then l'.from else l'.to, if from.Visitor? then l'.to else l'.from);
    } else {
      UnbornRests(l, from, f, ok);
    }
  }

  lemma PumpKeeps(s: Server, id: Id, from: Role, f: Option<Frame>, ok: bool, hears: bool)
    requires Inv(s) && Complete(s, id)
    ensures var l := LaneOf(s, id, from);
            Inv(WithLane(s, id, from, if hears then Hear(l, f) else Pass(l, from, ok)))
  {
    hide Hear, Pass, PairOk, HalfOk;
    assert Ok(s, id);
    var m := s.pairs[id];
    var l := LaneOf(s, id, from);
    var l' := if hears then Hear(l, f) else Pass(l, from, ok);
    PumpPairOk(m, s.peers[m.b.value], s.peers[m.c.value], from, f, ok, hears);
    LaneKeeps(s, id, from, l');
  }

  // ----- registration keeps it -----

  lemma ConnectKeeps(s: Server, k: Conn, first: Option<Frame>)
    requires Inv(s)
    ensures Inv(Connect(s, k, first))
  {
    hide ParseRegister, PairOk, HalfOk;
    var s' := Connect(s, k, first);
    var home := ParseRegister(first);
    forall id ensures Ok(s', id) {
      assert Ok(s, id);
      if k in s.peers {
      } else if home.Some? && home.value.0 == id && Slot(MatchOf(s, id), home.value.1).None? {
        assert Homed(s, k);
        SeatOk(s, k, first);
      } else {
        OtherOk(s, s', id);
      }
    }
    forall j ensures Homed(s', j) {
      assert Homed(s, j);
    }
  }

  /** The second connection of a pair becomes its greeter, the first one waits. */
  lemma SeatOk(s: Server, k: Conn, first: Option<Frame>)
    requires Inv(s) && k !in s.peers && ParseRegister(first).Some?
    requires var (id, role) := ParseRegister(first).value; Slot(MatchOf(s, id), role).None?
    ensures Ok(Connect(s, k, first), ParseRegister(first).value.0)
  {
    hide ParseRegister;
    var (id, role) := ParseRegister(first).value;
    assert Ok(s, id);
  }

  lemma AnswerKeeps(s: Server, k: Conn, ok: bool)
    requires Inv(s)
    ensures Inv(Answer(s, k, ok))
  {
    hide PairOk, HalfOk;
    var s' := Answer(s, k, ok);
    assert Homed(s, k);
    forall id ensures Ok(s', id) {
      assert Ok(s, id);
      if k in s.peers && s.peers[k].home.Some? && s.peers[k].home.value.0 == id {
        AnswerOk(s, k, ok);
      } else {
        AnswerElsewhere(s, k, ok, id);
        OtherOk(s, s', id);
      }
    }
    forall j ensures Homed(s', j) {
      assert Homed(s, j);
      AnswerHomes(s, k, ok, j);
    }
  }

  lemma AnswerHomes(s: Server, k: Conn, ok: bool, j: Conn)
    requires Inv(s) && Homed(s, k) && Homed(s, j)
    ensures Homed(Answer(s, k, ok), j)
  {
    hide PairOk, HalfOk, Ok, Inv;
  }

  /** The coroutine of `k` touches only the pair of `k`. */
  lemma AnswerElsewhere(s: Server, k: Conn, ok: bool, id: Id)
    requires Inv(s)
    requires k in s.peers && s.peers[k].home.Some? ==> s.peers[k].home.value.0 != id
    ensures var s' := Answer(s, k, ok);
            && (id in s.pairs <==> id in s'.pairs)
            && (id in s.pairs ==> s'.pairs[id] == s.pairs[id])
            && forall j, r :: j in s.peers && s.peers[j].home == Some((id, r)) ==> j in s'.peers && s'.peers[j] == s.peers[j]
  {
    hide PairOk, HalfOk;
    assert Homed(s, k);
    if k in s.peers && s.peers[k].home.Some? {
      assert Ok(s, s.peers[k].home.value.0);
    }
  }

  lemma AnswerOk(s: Server, k: Conn, ok: bool)
    requires Inv(s) && k in s.peers && s.peers[k].home.Some?
    ensures Ok(Answer(s, k, ok), s.peers[k].home.value.0)
  {
    var id := s.peers[k].home.value.0;
    assert Homed(s, k) && Ok(s, id);
    var m := s.pairs[id];
    if m.b.Some? && m.c.Some? {
      GreetOk(s, k, ok);
    }
  }

  lemma GreetOk(s: Server, k: Conn, ok: bool)
    requires Inv(s) && k in s.peers && s.peers[k].home.Some? && Complete(s, s.peers[k].home.value.0)
    ensures Ok(Answer(s, k, ok), s.peers[k].home.value.0)
  {
    var id := s.peers[k].home.value.0;
    assert Homed(s, k) && Ok(s, id);
  }

  lemma StepKeeps(s: Server, event: Event)
    requires Inv(s)
    ensures Inv(Step(s, event))
  {
    hide Inv, Connect, Answer, Hear, Pass, WithLane;
    match event
    case Connects(k, first) => ConnectKeeps(s, k, first);
    case Answered(k, ok) => AnswerKeeps(s, k, ok);
    case Hears(id, from, frame) => if Complete(s, id) { PumpKeeps(s, id, from, frame, false, true); }
    case Passes(id, from, ok) => if Complete(s, id) { PumpKeeps(s, id, from, None, ok, false); }
  }

  lemma {:induction false} RunKeeps(events: seq<Event>)
    ensures Inv(Run(IDLE, events))
  {
    if events != [] {
      RunKeeps(events[..|events| - 1]);
      StepKeeps(Run(IDLE, events[..|events| - 1]), events[|events| - 1]);
    }
  }
}
