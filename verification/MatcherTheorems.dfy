/** What the matcher promises in every run, and the orderly end it leaves half done. */
module MatcherTheorems {
  import opened Options
  import opened RelayCodec
  import opened Matcher
  import opened MatcherProofs

  // ----- uniqueness -----

  predicate Holds(s: Server, id: Id, role: Role, k: Conn) {
    id in s.pairs && Slot(s.pairs[id], role) == Some(k)
  }

  lemma StepSlots(s: Server, event: Event, id: Id, role: Role, k: Conn)
    requires Holds(s, id, role, k)
    ensures Holds(Step(s, event), id, role, k)
  {
    hide ParseRegister, Hear, Pass;
    match event
    case Connects(_, _) =>
    case Answered(_, _) =>
    case Hears(_, _, _) =>
    case Passes(_, _, _) =>
  }

  lemma {:induction false} RunSlots(s: Server, events: seq<Event>, id: Id, role: Role, k: Conn)
    requires Holds(s, id, role, k)
    ensures Holds(Run(s, events), id, role, k)
  {
    if events != [] {
      hide Step, Holds;
      var before := events[..|events| - 1];
      RunSlots(s, before, id, role, k);
      StepSlots(Run(s, before), events[|events| - 1], id, role, k);
    }
  }

  /** Whoever registers first for a role of an id keeps it: no later event replaces it. */
  lemma {:induction false} SlotsStay(events: seq<Event>, more: seq<Event>, id: Id, role: Role, k: Conn)
    requires Holds(Run(IDLE, events), id, role, k)
    ensures Holds(Run(Run(IDLE, events), more), id, role, k)
  {
    RunSlots(Run(IDLE, events), more, id, role, k);
  }

  /** The connection is or was the one that greets the pair `id` and starts its pumps. */
  predicate Greets(s: Server, k: Conn, id: Id) {
    && k in s.peers && s.peers[k].home.Some? && s.peers[k].home.value.0 == id
    && !s.peers[k].task.Waiting?
  }

  /** At most one registration of an id performs the READY exchange, and only when both roles are taken. */
  lemma {:induction false} OneGreeter(events: seq<Event>, id: Id, j: Conn, k: Conn)
    requires Greets(Run(IDLE, events), j, id) && Greets(Run(IDLE, events), k, id)
    ensures j == k && Complete(Run(IDLE, events), id)
  {
    hide Run;
    RunKeeps(events);
    var s := Run(IDLE, events);
    assert Ok(s, id) && Homed(s, j) && Homed(s, k);
  }

  /** Who holds a role of an id is the only connection registered as such. */
  lemma {:induction false} OneHolder(events: seq<Event>, k: Conn, id: Id, role: Role)
    ensures var s := Run(IDLE, events);
            k in s.peers && s.peers[k].home == Some((id, role)) <==> Holds(s, id, role, k)
  {
    RunKeeps(events);
    var s := Run(IDLE, events);
    assert Ok(s, id) && Homed(s, k);
  }

  // ----- forwarding -----

  /** READY, the image of a prefix of what the other peer sent, and then at most one EOF. */
  ghost predicate Delivered(from: Role, heard: seq<Frame>, told: seq<Frame>) {
    told == [] || exists n: nat :: DeliveredUpTo(from, heard, told, n)
  }

  ghost predicate DeliveredUpTo(from: Role, heard: seq<Frame>, told: seq<Frame>, n: nat) {
    && n <= |heard| && NoEof(heard[..n])
    && (told == [READY_FRAME] + Image(from, heard[..n]) || told == [READY_FRAME] + Image(from, heard[..n]) + [EOF_FRAME])
  }

  lemma StreamDelivered(pump: Pump, from: Role, heard: seq<Frame>, told: seq<Frame>)
    requires Stream(pump, from, heard, told)
    ensures Delivered(from, heard, told)
  {
    assert [READY_FRAME] + Image(from, heard[..pump.passed]) + [] == [READY_FRAME] + Image(from, heard[..pump.passed]);
    assert DeliveredUpTo(from, heard, told, pump.passed);
  }

  lemma ReadyDelivered(from: Role)
    ensures Delivered(from, [], [READY_FRAME])
  {
    assert DeliveredUpTo(from, [], [READY_FRAME], 0);
  }

  /** What either peer of a pair has been sent comes from the other peer of that pair alone. */
  lemma Forwarding(events: seq<Event>, id: Id)
    requires Complete(Run(IDLE, events), id)
    ensures var s := Run(IDLE, events);
            var b, c := s.peers[s.pairs[id].b.value], s.peers[s.pairs[id].c.value];
            Delivered(Visitor, b.heard, c.told) && Delivered(Provider, c.heard, b.told)
  {
    hide Run, Stream, Delivered;
    RunKeeps(events);
    var s := Run(IDLE, events);
    assert Ok(s, id);
    var m := s.pairs[id];
    var b, c := s.peers[m.b.value], s.peers[m.c.value];
    ReadyDelivered(Provider);
    EmptyDelivered(b.heard, c.heard);
    if Greeter(b, c).Paired? {
      StreamDelivered(m.up, Visitor, b.heard, c.told);
      StreamDelivered(m.down, Provider, c.heard, b.told);
    }
  }

  lemma EmptyDelivered(b: seq<Frame>, c: seq<Frame>)
    ensures Delivered(Visitor, b, []) && Delivered(Provider, c, [])
  {
  }

  /** Until its pair is complete a connection is sent nothing, and a refused one nothing but EOF. */
  lemma OthersToldNothing(events: seq<Event>, k: Conn)
    requires k in Run(IDLE, events).peers
    ensures var s := Run(IDLE, events); var p := s.peers[k];
            match p.home
            case None => p.told == [] || p.told == [EOF_FRAME]
            case Some((id, _)) => Complete(s, id) || p.told == []
  {
    hide Step;
    RunKeeps(events);
    var s := Run(IDLE, events);
    assert Homed(s, k);
    if s.peers[k].home.Some? {
      assert Ok(s, s.peers[k].home.value.0);
    } else {
      RefusedTold(events, k);
    }
  }

  ghost predicate Refused(s: Server, k: Conn) {
    k in s.peers && s.peers[k].home.None? ==>
      s.peers[k].told == [] || (s.peers[k].task.Over? && s.peers[k].told == [EOF_FRAME])
  }

  lemma {:induction false} RefusedTold(events: seq<Event>, k: Conn)
    ensures Refused(Run(IDLE, events), k)
  {
    if events != [] {
      var before, event := events[..|events| - 1], events[|events| - 1];
      RefusedTold(before, k);
      RunKeeps(before);
      RefusedStep(Run(IDLE, before), event, k);
    }
  }

  lemma RefusedStep(s: Server, event: Event, k: Conn)
    requires Inv(s) && Refused(s, k)
    ensures Refused(Step(s, event), k)
  {
    hide ParseRegister, PairOk, HalfOk;
    assert Homed(s, k);
    match event
    case Connects(_, _) =>
    case Answered(j, _) =>
      if j in s.peers && s.peers[j].home.Some? {
        assert Homed(s, j) && Ok(s, s.peers[j].home.value.0);
      }
    case Hears(id, _, _) => assert Ok(s, id);
    case Passes(id, _, _) => assert Ok(s, id);
  }

  /** The pair that an event is about. */
  function Subject(s: Server, event: Event): Option<Id> {
    match event
    case Connects(_, first) => if ParseRegister(first).None? then None else Some(ParseRegister(first).value.0)
    case Answered(k, _) => if k in s.peers && s.peers[k].home.Some? then Some(s.peers[k].home.value.0) else None
    case Hears(id, _, _) => Some(id)
    case Passes(id, _, _) => Some(id)
  }

  /** No event about one id touches the pair, or a connection, of another. */
  lemma {:induction false} PairsApart(events: seq<Event>, event: Event, id: Id)
    requires Subject(Run(IDLE, events), event) != Some(id)
    ensures Untouched(Run(IDLE, events), Step(Run(IDLE, events), event), id)
  {
    hide Run, Step, Subject, Untouched, Inv;
    RunKeeps(events);
    StepApart(Run(IDLE, events), event, id);
  }

  ghost predicate Untouched(s: Server, s': Server, id: Id) {
    && MatchOf(s', id) == MatchOf(s, id) && (id in s.pairs <==> id in s'.pairs)
    && forall k, r :: k in s.peers && s.peers[k].home == Some((id, r)) ==> k in s'.peers && s'.peers[k] == s.peers[k]
  }

  lemma StepApart(s: Server, event: Event, id: Id)
    requires Inv(s) && Subject(s, event) != Some(id)
    ensures Untouched(s, Step(s, event), id)
  {
    hide ParseRegister, PairOk, HalfOk, Hear, Pass;
    match event
    case Connects(_, _) =>
    case Answered(k, ok) => AnswerElsewhere(s, k, ok, id);
    case Hears(v, _, _) => assert Ok(s, v);
    case Passes(v, _, _) => assert Ok(s, v);
  }

  // ----- closing -----

  /** The closing block is entered at most once per pair, and exactly when the pair is dead. */
  lemma ClosingOnce(events: seq<Event>, id: Id)
    requires id in Run(IDLE, events).pairs
    ensures var m := Run(IDLE, events).pairs[id];
            && (m.dead <==> m.up.first || m.down.first) && !(m.up.first && m.down.first)
            && (m.up.closed ==> m.up.first) && (m.down.closed ==> m.down.first)
  {
    hide Run, Stream;
    RunKeeps(events);
    assert Ok(Run(IDLE, events), id);
  }

  /**
   Exactly when a closing block gets its EOF frame out and closes both connections: if and only if the
   write does not fail and the pump has not relayed an EOF of its own peer before.
   */
  lemma ClosingExact(events: seq<Event>, id: Id, from: Role, ok: bool)
    requires Complete(Run(IDLE, events), id) && LaneOf(Run(IDLE, events), id, from).pump.pc.Closing?
    ensures var l := LaneOf(Run(IDLE, events), id, from); var l' := Pass(l, from, ok);
            && (l'.pump.closed <==> ok && !l.pump.ended)
            && (l'.pump.closed ==> !l'.from.open && !l'.to.open)
            && (!l'.pump.closed ==> l'.from == l.from && l'.to == l.to)
  {
    hide Run, Stream;
    RunKeeps(events);
    assert Ok(Run(IDLE, events), id);
  }

  /** At any time a connection is closed exactly if an EOF was written to it by the pump towards it, or
      the closing block of the pump from it has completed. */
  lemma ClosedExact(events: seq<Event>, id: Id)
    requires Complete(Run(IDLE, events), id)
    ensures var s := Run(IDLE, events); var m := s.pairs[id];
            && (s.peers[m.b.value].open <==> !m.down.ended && !m.up.closed)
            && (s.peers[m.c.value].open <==> !m.up.ended && !m.down.closed)
  {
    hide Run, Stream;
    RunKeeps(events);
    var s := Run(IDLE, events);
    assert Ok(s, id);
  }

  /** Both pumps of an alive pair have written no EOF, and both its connections are open. */
  lemma AliveOpen(events: seq<Event>, id: Id, from: Role)
    requires Complete(Run(IDLE, events), id) && !Run(IDLE, events).pairs[id].dead
    requires LaneOf(Run(IDLE, events), id, from).pump.pc.Reading?
    ensures var s := Run(IDLE, events); var l := LaneOf(s, id, from);
            l.from.open && l.to.open && !l.pump.ended && s.pairs[id].b != s.pairs[id].c
  {
    hide Run, Image, NoEof;
    RunKeeps(events);
    var s := Run(IDLE, events);
    assert Ok(s, id);
  }

  lemma LaneWith(s: Server, id: Id, from: Role, l: Lane)
    requires Complete(s, id) && s.pairs[id].b != s.pairs[id].c
    ensures var t := WithLane(s, id, from, l);
            && Complete(t, id) && LaneOf(t, id, from) == l && t.pairs[id].b == s.pairs[id].b && t.pairs[id].c == s.pairs[id].c
            && PumpOf(t.pairs[id], Other(from)) == PumpOf(s.pairs[id], Other(from))
  {
  }

  /**
   A peer that disconnects ends its pair: once the pump that was reading from it has got its one EOF frame
   out, the pair is dead, the other peer has been told, and both connections are closed.
   */
  lemma {:induction false} DisconnectEnds(events: seq<Event>, id: Id, from: Role)
    requires Complete(Run(IDLE, events), id) && !Run(IDLE, events).pairs[id].dead
    requires LaneOf(Run(IDLE, events), id, from).pump.pc.Reading?
    ensures var s := Run(IDLE, events);
            var t := Step(Step(s, Hears(id, from, None)), Passes(id, from, true));
            && Complete(t, id)
            && var l, l' := LaneOf(s, id, from), LaneOf(t, id, from);
               && l'.dead && l'.pump.pc.Finished? && !l'.from.open && !l'.to.open
               && l'.to.told == l.to.told + [EOF_FRAME] && l'.from.told == l.from.told && l'.from.heard == l.from.heard
  {
    AliveOpen(events, id, from);
    hide Run, WithLane, LaneOf;
    var s := Run(IDLE, events);
    var l := LaneOf(s, id, from);
    LaneWith(s, id, from, Hear(l, None));
    LaneWith(Step(s, Hears(id, from, None)), id, from, Pass(Hear(l, None), from, true));
  }

  /** So does a peer that cannot be written to, as soon as the next frame for it fails. */
  lemma {:induction false} WriteFailureEnds(events: seq<Event>, id: Id, from: Role, f: Frame)
    requires Complete(Run(IDLE, events), id) && !Run(IDLE, events).pairs[id].dead && f.kind != EOF
    requires LaneOf(Run(IDLE, events), id, from).pump.pc.Reading?
    ensures var s := Run(IDLE, events);
            var u := Step(Step(s, Hears(id, from, Some(f))), Passes(id, from, false));
            && Complete(u, id) && LaneOf(u, id, from).dead && LaneOf(u, id, from).pump.pc.Closing?
            && LaneOf(u, id, from).to.told == LaneOf(s, id, from).to.told
            && var t := Step(u, Passes(id, from, true));
               Complete(t, id) && !LaneOf(t, id, from).from.open && !LaneOf(t, id, from).to.open
  {
    AliveOpen(events, id, from);
    hide Run, WithLane, LaneOf;
    var s := Run(IDLE, events);
    var l1 := Hear(LaneOf(s, id, from), Some(f));
    var l2 := Pass(l1, from, false);
    LaneWith(s, id, from, l1);
    var s1 := Step(s, Hears(id, from, Some(f)));
    LaneWith(s1, id, from, l2);
    LaneWith(Step(s1, Passes(id, from, false)), id, from, Pass(l2, from, true));
  }

  /** In a dead pair a pump whose connection is gone, or brings nothing, ends and writes nothing. */
  lemma {:induction false} DeadPumpStops(events: seq<Event>, id: Id, from: Role, f: Option<Frame>)
    requires Complete(Run(IDLE, events), id) && Run(IDLE, events).pairs[id].dead
    requires var l := LaneOf(Run(IDLE, events), id, from); l.pump.pc.Reading? && (f.None? || !l.from.open)
    ensures var s := Run(IDLE, events); var t := Step(s, Hears(id, from, f));
            && Complete(t, id) && LaneOf(t, id, from).pump.pc.Finished?
            && LaneOf(t, id, from).from == LaneOf(s, id, from).from && LaneOf(t, id, from).to == LaneOf(s, id, from).to
  {
    RunKeeps(events);
    var s := Run(IDLE, events);
    assert Ok(s, id);
    hide Run, WithLane, LaneOf, PairOk;
    LaneWith(s, id, from, Hear(LaneOf(s, id, from), f));
  }

  /**
   What becomes of a new connection: without a registration it is closed; for a role that is taken it is
   sent EOF and closed; else it holds the role.  In the first two cases no pair changes.
   */
  lemma RegistrationOutcome(s: Server, k: Conn, first: Option<Frame>)
    requires k !in s.peers
    ensures var t := Step(s, Connects(k, first));
            && k in t.peers && (forall j :: j in s.peers ==> j in t.peers && t.peers[j] == s.peers[j])
            && match ParseRegister(first)
               case None => t.pairs == s.pairs && !t.peers[k].open && t.peers[k].home.None?
               case Some((id, role)) =>
                 if Slot(MatchOf(s, id), role).Some? then
                   var u := Step(t, Answered(k, true));
                   && t.pairs == s.pairs && u.pairs == s.pairs && t.peers[k].home.None?
                   && k in u.peers && !u.peers[k].open && u.peers[k].told == [EOF_FRAME]
                 else
                   && Holds(t, id, role, k) && t.peers[k].open && t.peers[k].home == Some((id, role))
                   && Slot(MatchOf(t, id), Other(role)) == Slot(MatchOf(s, id), Other(role))
                   && forall v :: v != id ==> MatchOf(t, v) == MatchOf(s, v)
  {
    hide ParseRegister;
    assert [] + [EOF_FRAME] == [EOF_FRAME];
  }

  lemma RunSnoc(s: Server, events: seq<Event>, event: Event)
    ensures Run(s, events + [event]) == Step(Run(s, events), event)
  {
    assert (events + [event])[..|events|] == events;
  }

  /** Two connections register under `id`, are greeted, and are pumped. */
  function Opening(id: Id): seq<Event> {
    [Connects(0, Some(Frame(REGISTER, RegisterBody(id, Visitor)))), Connects(1, Some(Frame(REGISTER, RegisterBody(id, Provider)))),
     Answered(1, true), Answered(1, true)]
  }

  lemma Opens(id: Id)
    requires SPACE !in id
    ensures var up := UNBORN.(pc := Reading);
            Run(IDLE, Opening(id)) ==
            Server(map[id := Match(Some(0), Some(1), false, up, up)],
                   map[0 := Peer(Some((id, Visitor)), Waiting, true, [], [READY_FRAME]),
                       1 := Peer(Some((id, Provider)), Paired, true, [], [READY_FRAME])])
  {
    hide ParseRegister, RegisterBody;
    RegisterExact(id, Visitor);
    RegisterExact(id, Provider);
    var e := Opening(id);
    RunSnoc(IDLE, [], e[0]);
    RunSnoc(IDLE, [e[0]], e[1]);
    RunSnoc(IDLE, [e[0], e[1]], e[2]);
    RunSnoc(IDLE, [e[0], e[1], e[2]], e[3]);
    assert [] + [e[0]] == [e[0]] && [e[0]] + [e[1]] == [e[0], e[1]] && [e[0], e[1]] + [e[2]] == [e[0], e[1], e[2]];
    assert [e[0], e[1], e[2]] + [e[3]] == e;
    assert [] + [READY_FRAME] == [READY_FRAME];
  }

  /**
   An orderly end is left half done: after the visitor's own EOF frame both pumps end, although no write
   failed the visitor's connection stays open, and the visitor is never told.
   */
  lemma OrderlyEndHalfDone(id: Id)
    requires SPACE !in id
    ensures var s := Run(IDLE, Opening(id) + [Hears(id, Visitor, Some(EOF_FRAME))] + [Passes(id, Visitor, true)]
                                 + [Hears(id, Provider, None)] + [Passes(id, Visitor, true)]);
            && Complete(s, id) && s.pairs[id].up.pc.Finished? && s.pairs[id].down.pc.Finished?
            && LaneOf(s, id, Visitor).from.open && LaneOf(s, id, Visitor).from.told == [READY_FRAME]
            && !LaneOf(s, id, Visitor).to.open && LaneOf(s, id, Visitor).to.told == [READY_FRAME, EOF_FRAME]
  {
    Opens(id);
    hide Run;
    var e1 := Opening(id) + [Hears(id, Visitor, Some(EOF_FRAME))];
    RunSnoc(IDLE, Opening(id), Hears(id, Visitor, Some(EOF_FRAME)));
    var e2 := e1 + [Passes(id, Visitor, true)];
    RunSnoc(IDLE, e1, Passes(id, Visitor, true));
    assert [READY_FRAME] + [EOF_FRAME] == [READY_FRAME, EOF_FRAME];
    var e3 := e2 + [Hears(id, Provider, None)];
    RunSnoc(IDLE, e2, Hears(id, Provider, None));
    RunSnoc(IDLE, e3, Passes(id, Visitor, true));
  }
}
