/**
 The relay with its matcher: the nodes and links of `RelaySystem` around the pumps of one pair of `Matcher`.
 Every step of the two together is at most one step of `RelaySystem`, so what is proved there holds with
 the matcher in place of the acts that stand for it.
 */
module RelayJoint {
  import opened Options
  import opened RelayCodec
  import opened RelaySession
  import opened RelaySystem
  import RelayTheorems
  import Matcher
  import MatcherProofs
  import MatcherTheorems

  /** `net` has the frames that the matcher has not yet read, and those it has written. */
  datatype Joint = Joint(server: Matcher.Server, net: System)

  datatype JointAct =
    | AtNode(act: Act)                                  // a node acts or a link breaks
    | AtServer(event: Matcher.Event)                    // a registration, or a pump of another pair
    | PumpReads(from: Matcher.Role, arrives: bool)      // a pump's read returns: the next frame, or nothing
    | PumpWrites(from: Matcher.Role, ok: bool)          // a pump's write returns

  /** The acts of `RelaySystem` that stand for the matcher; here the pumps do their work. */
  predicate StandsForMatcher(act: Act) {
    act.Forwards? || act.Returns? || act.EndsUp? || act.EndsDown?
  }

  predicate PumpOfPair(event: Matcher.Event, id: Matcher.Id) {
    (event.Hears? || event.Passes?) && event.id == id
  }

  function Incoming(net: System, from: Matcher.Role): Link {
    if from.Visitor? then net.ba else net.ca
  }

  function WithIncoming(net: System, from: Matcher.Role, l: Link): System {
    if from.Visitor? then net.(ba := l) else net.(ca := l)
  }

  function Outgoing(net: System, from: Matcher.Role): Link {
    if from.Visitor? then net.ac else net.ab
  }

  function WithOutgoing(net: System, from: Matcher.Role, l: Link): System {
    if from.Visitor? then net.(ac := l) else net.(ab := l)
  }

  /** The frame that a pump's next successful write puts on its way. */
  function Writes(l: Matcher.Lane, from: Matcher.Role, ok: bool): Option<Frame> {
    if !ok || !l.to.open then None
    else
      match l.pump.pc
      case Writing(f) => Some(Matcher.Translate(from, f))
      case Ending => Some(Matcher.EOF_FRAME)
      case Closing => Some(Matcher.EOF_FRAME)
      case _ => None
  }

  function JointNext(j: Joint, id: Matcher.Id, act: JointAct): Joint {
    match act
    case AtNode(a) => if StandsForMatcher(a) then j else j.(net := Next(j.net, a))
    case AtServer(e) => if PumpOfPair(e, id) then j else j.(server := Matcher.Step(j.server, e))
    case PumpReads(from, arrives) =>
      if !Matcher.Complete(j.server, id) then j
      else
        var lane, link := Matcher.LaneOf(j.server, id, from), Incoming(j.net, from);
        if lane.pump.pc.Reading? && arrives && lane.from.open && link.frames != []
        then Joint(Matcher.Step(j.server, Matcher.Hears(id, from, Some(link.frames[0]))), WithIncoming(j.net, from, Pop(link)))
        else j.(server := Matcher.Step(j.server, Matcher.Hears(id, from, None)))
    case PumpWrites(from, ok) =>
      if !Matcher.Complete(j.server, id) then j
      else
        var out := Writes(Matcher.LaneOf(j.server, id, from), from, ok);
        Joint(Matcher.Step(j.server, Matcher.Passes(id, from, ok)),
              if out.None? then j.net else WithOutgoing(j.net, from, Put(Outgoing(j.net, from), out.value)))
  }

  function JointRun(id: Matcher.Id, acts: seq<JointAct>): Joint {
    if acts == [] then Joint(Matcher.IDLE, RelaySystem.Idle())
    else JointNext(JointRun(id, acts[..|acts| - 1]), id, acts[|acts| - 1])
  }

  // ----- what it is to the nodes -----

  /** What a pump has read and not passed on. */
  function Unpassed(s: Matcher.Server, id: Matcher.Id, from: Matcher.Role): seq<Frame> {
    if !Matcher.Complete(s, id) then []
    else
      var l := Matcher.LaneOf(s, id, from);
      if l.pump.passed <= |l.from.heard| then l.from.heard[l.pump.passed..] else []
  }

  function Before(frames: seq<Frame>, l: Link): Link {
    RawLink(frames + l.frames, l.dropped, l.dead)
  }

  function Ahead(net: System, up: seq<Frame>, down: seq<Frame>): System {
    net.(ba := Before(up, net.ba), ca := Before(down, net.ca))
  }

  /** The system as `RelaySystem` sees it: a frame in a pump's hands has not left its link. */
  function Abs(j: Joint, id: Matcher.Id): System {
    Ahead(j.net, Unpassed(j.server, id, Matcher.Visitor), Unpassed(j.server, id, Matcher.Provider))
  }

  /** The acts of `RelaySystem` that a joint act amounts to: none or one. */
  function Acts(j: Joint, id: Matcher.Id, act: JointAct): seq<Act> {
    match act
    case AtNode(a) => if StandsForMatcher(a) then [] else [Deeper(a, j.server, id)]
    case AtServer(_) => []
    case PumpReads(_, _) => []
    case PumpWrites(from, ok) =>
      if !Matcher.Complete(j.server, id) then []
      else
        var lane := Matcher.LaneOf(j.server, id, from);
        if Writes(lane, from, ok).None? then []
        else if lane.pump.pc.Writing? then [if from.Visitor? then Forwards else Returns]
        else [if from.Visitor? then EndsUp else EndsDown]
  }

  /** A link into the matcher breaks behind what a pump has already read. */
  function Deeper(a: Act, s: Matcher.Server, id: Matcher.Id): Act {
    if a.Breaks? && a.link.BA? then Breaks(BA, a.left + |Unpassed(s, id, Matcher.Visitor)|)
    else if a.Breaks? && a.link.CA? then Breaks(CA, a.left + |Unpassed(s, id, Matcher.Provider)|)
    else a
  }

  // ----- nodes -----

  lemma BeforePut(frames: seq<Frame>, l: Link, f: Frame)
    ensures Put(Before(frames, l), f) == Before(frames, Put(l, f))
  {
    assert (frames + l.frames) + [f] == frames + (l.frames + [f]);
  }

  lemma {:induction false} BeforePutOut(frames: seq<Frame>, l: Link, u: Id, out: seq<Msg>)
    ensures PutOut(Before(frames, l), u, out) == Before(frames, PutOut(l, u, out))
    decreases |out|
  {
    if out != [] {
      hide Put, Before;
      BeforePut(frames, l, FrameOf(u, out[0]));
      BeforePutOut(frames, Put(l, FrameOf(u, out[0])), u, out[1..]);
    }
  }

  lemma BeforeCut(frames: seq<Frame>, l: Link, left: nat)
    ensures Cut(Before(frames, l), left + |frames|) == Before(frames, Cut(l, left))
  {
    var n := if left <= |l.frames| then left else |l.frames|;
    assert (frames + l.frames)[..n + |frames|] == frames + l.frames[..n];
    assert (frames + l.frames)[n + |frames|..] == l.frames[n..];
  }

  /** A node sees no difference between a frame on a link and one in a pump's hands. */
  lemma NodeActs(net: System, up: seq<Frame>, down: seq<Frame>, a: Act, deep: Act)
    requires !StandsForMatcher(a)
    requires deep == (if a.Breaks? && a.link.BA? then Breaks(BA, a.left + |up|)
                      else if a.Breaks? && a.link.CA? then Breaks(CA, a.left + |down|) else a)
    ensures Next(Ahead(net, up, down), deep) == Ahead(Next(net, a), up, down)
  {
    hide BStep, CStep, FrameOf, Before, Cut, Put, Pop, StopB, StopC, VisitorReads, ProviderReads, EndsProvider;
    match a
    case VisitorActs(u, bAct) => BeforePutOut(up, net.ba, u, BStep(BOf(net, u), bAct).1);
    case ProviderActs(u, cAct) => BeforePutOut(down, net.ca, u, CStep(COf(net, u), cAct).1);
    case VisitorTakes(fail) => VisitorTakesAhead(net, up, down, fail);
    case ProviderTakes(fail) => ProviderTakesAhead(net, up, down, fail);
    case Breaks(link, left) =>
      BeforeCut(up, net.ba, left);
      BeforeCut(down, net.ca, left);
    case VisitorStops => StopsAhead(net, up, down);
    case ProviderStops => StopsAhead(net, up, down);
    case _ =>
  }

  lemma StopsAhead(net: System, up: seq<Frame>, down: seq<Frame>)
    ensures StopB(Ahead(net, up, down)) == Ahead(StopB(net), up, down)
    ensures StopC(Ahead(net, up, down)) == Ahead(StopC(net), up, down)
  {
    hide Before, BHalt, CHalt;
  }

  lemma VisitorTakesAhead(net: System, up: seq<Frame>, down: seq<Frame>, fail: Option<nat>)
    ensures Next(Ahead(net, up, down), VisitorTakes(fail)) == Ahead(Next(net, VisitorTakes(fail)), up, down)
  {
    hide Before, Pop, StopB, VisitorReads, BReceive;
    if net.ab.frames != [] {
      StopsAhead(net.(ab := Pop(net.ab)), up, down);
    }
  }

  lemma ProviderTakesAhead(net: System, up: seq<Frame>, down: seq<Frame>, fail: Option<nat>)
    ensures Next(Ahead(net, up, down), ProviderTakes(fail)) == Ahead(Next(net, ProviderTakes(fail)), up, down)
  {
    hide Before, Pop, StopC, ProviderReads, CReceive, EndsProvider;
    if net.ac.frames != [] {
      var t := net.(ac := Pop(net.ac));
      StopsAhead(t, up, down);
      if ProviderReads(net.ac.frames[0]).Some? {
        var (u, m) := ProviderReads(net.ac.frames[0]).value;
        StopsAhead(t.(c := net.c[u := CReceive(COf(net, u), m, fail)]), up, down);
      }
    }
  }

  // ----- the server -----

  /** Registrations, greetings and the pumps of other pairs neither read nor pass on a frame of this pair. */
  lemma ServerActs(s: Matcher.Server, id: Matcher.Id, e: Matcher.Event, from: Matcher.Role)
    requires MatcherProofs.Inv(s) && !PumpOfPair(e, id)
    ensures Unpassed(Matcher.Step(s, e), id, from) == Unpassed(s, id, from)
  {
    hide Matcher.ParseRegister, MatcherProofs.PairOk, MatcherProofs.HalfOk, Matcher.Step, MatcherTheorems.Subject;
    var s' := Matcher.Step(s, e);
    assert MatcherProofs.Ok(s, id);
    if MatcherTheorems.Subject(s, e) != Some(id) {
      MatcherTheorems.StepApart(s, e, id);
    } else {
      MatcherProofs.StepKeeps(s, e);
      assert MatcherProofs.Ok(s', id);
      OwnEvent(s, id, e);
      if !Matcher.Complete(s, id) {
        NewPairUnheard(s, id, e);
      }
    }
  }

  /** A registration or greeting changes no seat that is taken, no frame that was read, and no pump's count. */
  lemma OwnEvent(s: Matcher.Server, id: Matcher.Id, e: Matcher.Event)
    requires MatcherProofs.Inv(s) && MatcherTheorems.Subject(s, e) == Some(id) && !PumpOfPair(e, id)
    ensures Matcher.Complete(s, id) ==>
              var s' := Matcher.Step(s, e);
              var m, m' := s.pairs[id], Matcher.MatchOf(s', id);
              && Matcher.Complete(s', id) && m'.b == m.b && m'.c == m.c
              && s'.peers[m.b.value].heard == s.peers[m.b.value].heard
              && s'.peers[m.c.value].heard == s.peers[m.c.value].heard
              && m'.up.passed == m.up.passed && m'.down.passed == m.down.passed
  {
    hide Matcher.ParseRegister;
    assert MatcherProofs.Ok(s, id);
    if e.Answered? {
      assert MatcherProofs.Homed(s, e.k);
    }
  }

  /** When a pair is completed neither side has been read. */
  lemma NewPairUnheard(s: Matcher.Server, id: Matcher.Id, e: Matcher.Event)
    requires MatcherProofs.Inv(s) && MatcherTheorems.Subject(s, e) == Some(id) && !PumpOfPair(e, id)
    requires !Matcher.Complete(s, id)
    ensures var s' := Matcher.Step(s, e);
            Matcher.Complete(s', id) ==>
              && Matcher.LaneOf(s', id, Matcher.Visitor).from.heard == []
              && Matcher.LaneOf(s', id, Matcher.Provider).from.heard == []
  {
    hide Matcher.ParseRegister;
    assert MatcherProofs.Ok(s, id);
    if e.Answered? {
      assert MatcherProofs.Homed(s, e.k);
    }
  }

  // ----- the pumps -----

  /** What a pump holds of the frames it has read. */
  lemma LaneHolds(s: Matcher.Server, id: Matcher.Id, from: Matcher.Role)
    requires MatcherProofs.Inv(s) && Matcher.Complete(s, id)
    ensures var l := Matcher.LaneOf(s, id, from);
            && l.pump.passed <= |l.from.heard|
            && (l.pump.pc.Reading? ==> l.from.heard[l.pump.passed..] == [])
            && (l.pump.pc.Writing? ==> l.from.heard[l.pump.passed..] == [l.pump.pc.frame])
            && s.pairs[id].b != s.pairs[id].c
  {
    hide MatcherProofs.Closer, MatcherProofs.Doors, MatcherProofs.Image, MatcherProofs.NoEof;
    assert MatcherProofs.Ok(s, id);
  }

  function Rest(l: Matcher.Lane): seq<Frame> {
    if l.pump.passed <= |l.from.heard| then l.from.heard[l.pump.passed..] else []
  }

  /** A step of one pump changes what it holds, and nothing of what the other holds. */
  lemma LaneUnpassed(s: Matcher.Server, id: Matcher.Id, from: Matcher.Role, l: Matcher.Lane)
    requires Matcher.Complete(s, id) && s.pairs[id].b != s.pairs[id].c
    requires l.to.heard == Matcher.LaneOf(s, id, from).to.heard
    ensures var s' := Matcher.WithLane(s, id, from, l);
            && Unpassed(s, id, from) == Rest(Matcher.LaneOf(s, id, from)) && Unpassed(s', id, from) == Rest(l)
            && Unpassed(s', id, Matcher.Other(from)) == Unpassed(s, id, Matcher.Other(from))
  {
  }

  lemma HeldFirst(f: Frame, l: Link)
    requires l.frames != [] && f == l.frames[0]
    ensures Before([f], Pop(l)) == Before([], l) && Before([], l) == l
  {
    assert [f] + l.frames[1..] == l.frames && [] + l.frames == l.frames;
  }

  lemma ReadsActs(j: Joint, id: Matcher.Id, from: Matcher.Role, arrives: bool)
    requires MatcherProofs.Inv(j.server)
    ensures Abs(JointNext(j, id, PumpReads(from, arrives)), id) == Abs(j, id)
  {
    hide MatcherProofs.Inv, Pop, Unpassed, Before;
    if Matcher.Complete(j.server, id) {
      LaneHolds(j.server, id, from);
      var l, link := Matcher.LaneOf(j.server, id, from), Incoming(j.net, from);
      if l.pump.pc.Reading? && arrives && l.from.open && link.frames != [] {
        LaneUnpassed(j.server, id, from, Matcher.Hear(l, Some(link.frames[0])));
        assert Rest(Matcher.Hear(l, Some(link.frames[0]))) == [link.frames[0]];
        HeldFirst(link.frames[0], link);
      } else {
        LaneUnpassed(j.server, id, from, Matcher.Hear(l, None));
      }
    }
  }

  /** Nothing, or one act of the system. */
  function Did(s: System, acts: seq<Act>): System {
    if acts == [] then s else Next(s, acts[0])
  }

  /** `Writes` is what the machine's step adds to the frames told to the other peer. */
  lemma WritesTold(l: Matcher.Lane, from: Matcher.Role, ok: bool)
    ensures var l' := Matcher.Pass(l, from, ok);
            && l'.to.told == l.to.told + (if Writes(l, from, ok).Some? then [Writes(l, from, ok).value] else [])
            && l'.from.heard == l.from.heard && l'.to.heard == l.to.heard
            && l'.pump.passed == l.pump.passed + (if l.pump.pc.Writing? && Writes(l, from, ok).Some? then 1 else 0)
  {
    assert l.to.told + [] == l.to.told;
  }

  lemma WritesActs(j: Joint, id: Matcher.Id, from: Matcher.Role, ok: bool)
    requires MatcherProofs.Inv(j.server)
    ensures var act := PumpWrites(from, ok);
            Abs(JointNext(j, id, act), id) == Did(Abs(j, id), Acts(j, id, act))
  {
    hide MatcherProofs.Inv, Put, Unpassed, Before, Matcher.Pass, Matcher.Translate;
    if Matcher.Complete(j.server, id) {
      LaneHolds(j.server, id, from);
      var l := Matcher.LaneOf(j.server, id, from);
      var l' := Matcher.Pass(l, from, ok);
      WritesTold(l, from, ok);
      LaneUnpassed(j.server, id, from, l');
      if l.pump.pc.Writing? && Writes(l, from, ok).Some? {
        assert Rest(l) == [l.pump.pc.frame] && Rest(l') == [];
        HeldPops(l.pump.pc.frame, Incoming(j.net, from));
      }
    }
  }

  lemma HeldPops(f: Frame, l: Link)
    ensures Before([f], l).frames != [] && Before([f], l).frames[0] == f && Pop(Before([f], l)) == Before([], l)
  {
    assert ([f] + l.frames)[1..] == l.frames && [] + l.frames == l.frames;
  }

  // ----- every run -----

  lemma JointStep(j: Joint, id: Matcher.Id, act: JointAct)
    requires MatcherProofs.Inv(j.server)
    ensures Abs(JointNext(j, id, act), id) == Did(Abs(j, id), Acts(j, id, act)) && |Acts(j, id, act)| <= 1
  {
    hide MatcherProofs.Inv, Matcher.Step, Unpassed, Next;
    match act
    case AtNode(a) =>
      if !StandsForMatcher(a) {
        NodeActs(j.net, Unpassed(j.server, id, Matcher.Visitor), Unpassed(j.server, id, Matcher.Provider), a,
                 Deeper(a, j.server, id));
      }
    case AtServer(e) =>
      if !PumpOfPair(e, id) {
        ServerActs(j.server, id, e, Matcher.Visitor);
        ServerActs(j.server, id, e, Matcher.Provider);
      }
    case PumpReads(from, arrives) => ReadsActs(j, id, from, arrives);
    case PumpWrites(from, ok) => WritesActs(j, id, from, ok);
  }

  /** The matcher's event in a joint act. */
  function Events(j: Joint, id: Matcher.Id, act: JointAct): seq<Matcher.Event> {
    match act
    case AtNode(_) => []
    case AtServer(e) => if PumpOfPair(e, id) then [] else [e]
    case PumpReads(from, arrives) =>
      if !Matcher.Complete(j.server, id) then []
      else
        var lane, link := Matcher.LaneOf(j.server, id, from), Incoming(j.net, from);
        [Matcher.Hears(id, from, if lane.pump.pc.Reading? && arrives && lane.from.open && link.frames != []
                                 then Some(link.frames[0]) else None)]
    case PumpWrites(from, ok) => if Matcher.Complete(j.server, id) then [Matcher.Passes(id, from, ok)] else []
  }

  lemma ServerKeeps(j: Joint, id: Matcher.Id, act: JointAct)
    requires MatcherProofs.Inv(j.server)
    ensures var events := Events(j, id, act);
            && |events| <= 1
            && JointNext(j, id, act).server == (if events == [] then j.server else Matcher.Step(j.server, events[0]))
            && MatcherProofs.Inv(JointNext(j, id, act).server)
  {
    hide MatcherProofs.Inv, Matcher.Step;
    var events := Events(j, id, act);
    if events != [] {
      MatcherProofs.StepKeeps(j.server, events[0]);
    }
  }

  /** Refinement: a run of both is a run of `Matcher` alone and, to both nodes, a run of `RelaySystem` alone. */
  lemma {:induction false} Refines(id: Matcher.Id, joint: seq<JointAct>) returns (acts: seq<Act>, events: seq<Matcher.Event>)
    ensures JointRun(id, joint).server == Matcher.Run(Matcher.IDLE, events)
    ensures Abs(JointRun(id, joint), id) == RunAll(acts)
  {
    hide JointNext, Abs, MatcherProofs.Inv, Acts, Events, Next, Matcher.Step;
    if joint == [] {
      acts, events := [], [];
      StartAgrees(id);
    } else {
      var before, act := joint[..|joint| - 1], joint[|joint| - 1];
      var j := JointRun(id, before);
      acts, events := Refines(id, before);
      MatcherProofs.RunKeeps(events);
      JointStep(j, id, act);
      ServerKeeps(j, id, act);
      var more, e := Acts(j, id, act), Events(j, id, act);
      if more != [] {
        assert (acts + more)[..|acts|] == acts && more == [more[0]];
        acts := acts + more;
      }
      if e != [] {
        assert (events + e)[..|events|] == events && e == [e[0]];
        events := events + e;
      }
    }
  }

  lemma StartAgrees(id: Matcher.Id)
    ensures Abs(Joint(Matcher.IDLE, RelaySystem.Idle()), id) == RunAll([])
  {
    assert [] + RelaySystem.Idle().ba.frames == [];
  }

  /** Isolation with the matcher in between. */
  lemma {:induction false} JointIsolation(id: Matcher.Id, joint: seq<JointAct>, u: Id)
    requires |u| == UUID_BYTES
    ensures var b, c := BOf(JointRun(id, joint).net, u), COf(JointRun(id, joint).net, u);
            && b.io.wrote <= c.io.read
            && (!c.race.overtaken ==> c.io.wrote <= b.io.read)
            && multiset(c.io.wrote) <= multiset(b.io.read)
  {
    hide JointRun, RunAll, Unpassed;
    var acts, events := Refines(id, joint);
    SameRecords(JointRun(id, joint), id, u);
    Isolation(acts, u);
  }

  lemma SameRecords(j: Joint, id: Matcher.Id, u: Id)
    ensures BOf(Abs(j, id), u) == BOf(j.net, u) && COf(Abs(j, id), u) == COf(j.net, u)
  {
    hide Unpassed;
  }

  /** Complete delivery with the matcher in between. */
  lemma {:induction false} JointDelivery(id: Matcher.Id, joint: seq<JointAct>, u: Id)
    requires |u| == UUID_BYTES
    ensures var b, c := BOf(JointRun(id, joint).net, u), COf(JointRun(id, joint).net, u);
            && !b.past.fault && !c.past.fault && !c.race.overtaken && !c.race.earlyEof
            && b.created && !b.listed && c.created && !c.listed ==>
              && c.io.wrote == b.io.read && b.io.wrote == c.io.read
              && c.sock.shut && c.sock.shutAt == |b.io.read|
              && b.sock.shut && b.sock.shutAt == |c.io.read|
  {
    hide JointRun, RunAll, Unpassed;
    var acts, events := Refines(id, joint);
    var j := JointRun(id, joint);
    SameRecords(j, id, u);
    var b, c := BOf(j.net, u), COf(j.net, u);
    if RelayTheorems.Undisturbed(Project(RunAll(acts), u)) && RelayTheorems.Removed(Project(RunAll(acts), u)) {
      DeliveryForAll(acts, u);
    }
  }
}
