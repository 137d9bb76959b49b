/**
 The converse of projection: every run of one session in which the provider meets no error is a run of the
 whole relay, through the matcher's pumps.  What one session can do, good or bad, therefore happens there.
 */
module RelayRealize {
  import opened Options
  import opened RelayCodec
  import opened RelaySession
  import opened RelaySystem
  import opened RelayJoint
  import RelayProofs
  import RelayTheorems
  import Matcher
  import MatcherTheorems

  // ----- the pumps of one pair, waiting for frames -----

  ghost predicate Pumping(s: Matcher.Server, id: Matcher.Id) {
    && Matcher.Complete(s, id) && s.pairs[id].b != s.pairs[id].c
    && s.pairs[id].up.pc.Reading? && s.pairs[id].down.pc.Reading?
    && s.peers[s.pairs[id].b.value].open && s.peers[s.pairs[id].c.value].open
  }

  /** Both links to the matcher are empty, and no link has broken. */
  ghost predicate Clear(net: System) {
    && net.ba == RawLink([], [], false) && net.ca == RawLink([], [], false)
    && !net.ac.dead && !net.ab.dead
  }

  /** A pump takes the one frame on its link and passes it on. */
  function Carry(from: Matcher.Role): seq<JointAct> {
    [PumpReads(from, true)] + [PumpWrites(from, true)]
  }

  function After(j: Joint, id: Matcher.Id, acts: seq<JointAct>): Joint {
    if acts == [] then j else JointNext(After(j, id, acts[..|acts| - 1]), id, acts[|acts| - 1])
  }

  lemma {:induction false} AfterRun(id: Matcher.Id, acts: seq<JointAct>, more: seq<JointAct>)
    ensures JointRun(id, acts + more) == After(JointRun(id, acts), id, more)
    decreases |more|
  {
    if more == [] {
      assert acts + more == acts;
    } else {
      AfterRun(id, acts, more[..|more| - 1]);
      assert (acts + more)[..|acts + more| - 1] == acts + more[..|more| - 1];
    }
  }

  lemma AfterTwo(j: Joint, id: Matcher.Id, first: JointAct, second: JointAct)
    ensures After(j, id, [first]) == JointNext(j, id, first)
    ensures After(j, id, [first] + [second]) == JointNext(JointNext(j, id, first), id, second)
  {
    assert [first][..0] == [] && ([first] + [second])[..1] == [first];
  }

  lemma CarryServer(s: Matcher.Server, id: Matcher.Id, from: Matcher.Role, f: Frame)
    requires Pumping(s, id) && f.kind != EOF
    ensures var t := Matcher.Step(s, Matcher.Hears(id, from, Some(f)));
            && Matcher.Complete(t, id)
            && Writes(Matcher.LaneOf(t, id, from), from, true) == Some(Matcher.Translate(from, f))
            && Pumping(Matcher.Step(t, Matcher.Passes(id, from, true)), id)
  {
    hide Matcher.Translate;
  }

  /** One frame goes through the matcher, renamed on the way. */
  lemma Carries(j: Joint, id: Matcher.Id, from: Matcher.Role, f: Frame)
    requires Pumping(j.server, id) && f.kind != EOF && Incoming(j.net, from) == RawLink([f], [], false)
    ensures var k := After(j, id, Carry(from));
            && Pumping(k.server, id)
            && k.net == WithOutgoing(WithIncoming(j.net, from, RawLink([], [], false)), from,
                                     Put(Outgoing(j.net, from), Matcher.Translate(from, f)))
  {
    hide Put, Matcher.Translate, Matcher.Step, After, Writes;
    AfterTwo(j, id, PumpReads(from, true), PumpWrites(from, true));
    CarryServer(j.server, id, from, f);
    assert [f][1..] == [];
  }

  // ----- frames of a session on the two links behind the matcher -----

  function UpFrames(u: Id, ms: seq<Msg>): seq<Frame> {
    seq(|ms|, i requires 0 <= i < |ms| => Matcher.Translate(Matcher.Visitor, FrameOf(u, ms[i])))
  }

  function DownFrames(u: Id, ms: seq<Msg>): seq<Frame> {
    seq(|ms|, i requires 0 <= i < |ms| => FrameOf(u, ms[i]))
  }

  /** The joint run is at a point where the session `u` is all there is, and is as in `s`. */
  ghost predicate Synced(j: Joint, id: Matcher.Id, u: Id, s: Session) {
    && Pumping(j.server, id) && Clear(j.net) && !j.net.bStopped && !j.net.cStopped
    && j.net.b.Keys <= {u}
    && BOf(j.net, u) == s.b && COf(j.net, u) == s.c
    && j.net.ac.frames == UpFrames(u, s.up) && j.net.ab.frames == DownFrames(u, s.down)
  }

  /** The step can be taken without ending the provider or stopping a node. */
  ghost predicate Peaceful(s: Session, event: Event) {
    && !event.BHalts? && !event.CHalts?
    && (event.CTake? && s.up != [] ==> !EndsProvider(s.c, s.up[0], event.fail))
  }

  lemma FramesSnoc(u: Id, ms: seq<Msg>, m: Msg)
    ensures UpFrames(u, ms + [m]) == UpFrames(u, ms) + [Matcher.Translate(Matcher.Visitor, FrameOf(u, m))]
    ensures DownFrames(u, ms + [m]) == DownFrames(u, ms) + [FrameOf(u, m)]
  {
  }

  lemma FramesTail(u: Id, ms: seq<Msg>)
    requires ms != []
    ensures UpFrames(u, ms) != [] && UpFrames(u, ms)[0] == Matcher.Translate(Matcher.Visitor, FrameOf(u, ms[0]))
    ensures UpFrames(u, ms)[1..] == UpFrames(u, ms[1..])
    ensures DownFrames(u, ms) != [] && DownFrames(u, ms)[0] == FrameOf(u, ms[0])
    ensures DownFrames(u, ms)[1..] == DownFrames(u, ms[1..])
  {
  }

  lemma NotFinal(u: Id, m: Msg)
    ensures FrameOf(u, m).kind != EOF && Matcher.Translate(Matcher.Visitor, FrameOf(u, m)).kind != EOF
    ensures Matcher.Translate(Matcher.Provider, FrameOf(u, m)) == FrameOf(u, m)
  {
  }

  lemma SendsOne(s: Session)
    ensures forall act :: |BStep(s.b, act).1| <= 1
    ensures forall act :: |CStep(s.c, act).1| <= 1
  {
  }

  /** A visitor step, and the frame it sends carried to the provider's link. */
  lemma VisitorSteps(j: Joint, id: Matcher.Id, u: Id, s: Session, act: BAct) returns (more: seq<JointAct>)
    requires |u| == UUID_BYTES && Synced(j, id, u, s)
    ensures Synced(After(j, id, more), id, u, Step(s, OnB(act)))
  {
    hide BStep, FrameOf, Matcher.Translate, Pumping, After, UpFrames, DownFrames;
    SendsOne(s);
    var first := AtNode(VisitorActs(u, act));
    var out := BStep(s.b, act).1;
    var k := JointNext(j, id, first);
    AfterTwo(j, id, first, first);
    if out == [] {
      more := [first];
      assert s.up + [] == s.up;
    } else {
      var f := FrameOf(u, out[0]);
      NotFinal(u, out[0]);
      assert PutOut(j.net.ba, u, out) == PutOut(Put(j.net.ba, f), u, []);
      assert [] + [f] == [f];
      Carries(k, id, Matcher.Visitor, f);
      AfterMore(j, id, first, Carry(Matcher.Visitor));
      FramesSnoc(u, s.up, out[0]);
      assert out == [out[0]];
      more := [first] + Carry(Matcher.Visitor);
    }
  }

  lemma ProviderSteps(j: Joint, id: Matcher.Id, u: Id, s: Session, act: CAct) returns (more: seq<JointAct>)
    requires |u| == UUID_BYTES && Synced(j, id, u, s)
    ensures Synced(After(j, id, more), id, u, Step(s, OnC(act)))
  {
    hide CStep, FrameOf, Matcher.Translate, Pumping, After, UpFrames, DownFrames;
    SendsOne(s);
    var first := AtNode(ProviderActs(u, act));
    var out := CStep(s.c, act).1;
    var k := JointNext(j, id, first);
    AfterTwo(j, id, first, first);
    if out == [] {
      more := [first];
      assert s.down + [] == s.down;
    } else {
      var f := FrameOf(u, out[0]);
      NotFinal(u, out[0]);
      assert PutOut(j.net.ca, u, out) == PutOut(Put(j.net.ca, f), u, []);
      assert [] + [f] == [f];
      Carries(k, id, Matcher.Provider, f);
      AfterMore(j, id, first, Carry(Matcher.Provider));
      FramesSnoc(u, s.down, out[0]);
      assert out == [out[0]];
      more := [first] + Carry(Matcher.Provider);
    }
  }

  lemma {:induction false} AfterMore(j: Joint, id: Matcher.Id, first: JointAct, rest: seq<JointAct>)
    ensures After(j, id, [first] + rest) == After(JointNext(j, id, first), id, rest)
    decreases |rest|
  {
    var all := [first] + rest;
    if rest == [] {
      assert all == [first] && [first][..0] == [];
    } else {
      AfterMore(j, id, first, rest[..|rest| - 1]);
      assert all[..|all| - 1] == [first] + rest[..|rest| - 1];
    }
  }

  lemma VisitorHandles(j: Joint, id: Matcher.Id, u: Id, s: Session, fail: Option<nat>) returns (more: seq<JointAct>)
    requires |u| == UUID_BYTES && Synced(j, id, u, s)
    ensures Synced(After(j, id, more), id, u, Step(s, BTake(fail)))
  {
    hide BReceive, FrameOf, Matcher.Translate, Pumping, After, UpFrames, DownFrames, VisitorReads;
    var act := AtNode(VisitorTakes(fail));
    more := [];
    NoneAfter(j, id);
    if s.down != [] && s.b.failing.Calm? {
      more := [act];
      AfterTwo(j, id, act, act);
      FramesTail(u, s.down);
      NotFinal(u, s.down[0]);
      FrameReadBack(u, s.down[0]);
      assert ReaderFree(j.net) by {
        forall v | v in j.net.b ensures j.net.b[v].failing.Calm? {
          assert v in j.net.b.Keys && v == u;
        }
      }
    }
  }

  lemma NoneAfter(j: Joint, id: Matcher.Id)
    ensures After(j, id, []) == j
  {
  }

  lemma ProviderHandles(j: Joint, id: Matcher.Id, u: Id, s: Session, fail: Option<nat>) returns (more: seq<JointAct>)
    requires |u| == UUID_BYTES && Synced(j, id, u, s) && Peaceful(s, CTake(fail))
    ensures Synced(After(j, id, more), id, u, Step(s, CTake(fail)))
  {
    hide CReceive, FrameOf, Matcher.Translate, Pumping, After, UpFrames, DownFrames, ProviderReads, EndsProvider;
    var act := AtNode(ProviderTakes(fail));
    more := [];
    NoneAfter(j, id);
    if s.up != [] {
      more := [act];
      AfterTwo(j, id, act, act);
      FramesTail(u, s.up);
      NotFinal(u, s.up[0]);
      FrameReadBack(u, s.up[0]);
    }
  }

  lemma SessionSteps(j: Joint, id: Matcher.Id, u: Id, s: Session, event: Event) returns (more: seq<JointAct>)
    requires |u| == UUID_BYTES && Synced(j, id, u, s) && Peaceful(s, event)
    ensures Synced(After(j, id, more), id, u, Step(s, event))
  {
    hide Synced, After, Step;
    match event
    case OnB(act) => more := VisitorSteps(j, id, u, s, act);
    case OnC(act) => more := ProviderSteps(j, id, u, s, act);
    case BTake(fail) => more := VisitorHandles(j, id, u, s, fail);
    case CTake(fail) => more := ProviderHandles(j, id, u, s, fail);
  }

  // ----- the whole run -----

  /** A provider error is never undone, so a run without one at its end has had none. */
  lemma FaultStays(s: Session, event: Event)
    requires RelayProofs.Inv(s) && !event.BHalts? && !event.CHalts? && !Step(s, event).c.past.fault
    ensures !s.c.past.fault && Peaceful(s, event)
  {
    RelayProofs.Parts(s);
    match event {
      case OnC(act) => FaultActs(s.c, act);
      case CTake(fail) =>
        if s.up != [] {
          RelayProofs.CTakeAnnounced(s, fail);
          FaultReceive(s.c, s.up[0], fail);
        }
      case _ =>
    }
  }

  lemma FaultActs(c: CSess, act: CAct)
    ensures c.past.fault ==> CStep(c, act).0.past.fault
  {
    match act
    case CResume => if c.pump.Sent? { match c.pump.m case Data(_) => case _ => }
    case _ =>
  }

  lemma FaultReceive(c: CSess, m: Msg, fail: Option<nat>)
    requires m.New? ==> c == FRESH_C
    ensures c.past.fault || EndsProvider(c, m, fail) ==> CReceive(c, m, fail).past.fault
  {
    if m.Data? {
      var t := c.(past := Noted(c.past, m));
      if t.listed && !t.ends.closed && t.dial.connected {
        if m.payload == [] || (Usable(t.sock) && fail.None?) {
        } else {
        }
      }
    }
  }

  lemma OpenedPair(id: Matcher.Id, u: Id) returns (acts: seq<JointAct>)
    requires Matcher.SPACE !in id
    ensures Synced(JointRun(id, acts), id, u, START)
  {
    var e := MatcherTheorems.Opening(id);
    acts := [AtServer(e[0]), AtServer(e[1]), AtServer(e[2]), AtServer(e[3])];
    MatcherTheorems.Opens(id);
    ServerOnly(id, e, acts);
    assert UpFrames(u, []) == [] && DownFrames(u, []) == [];
  }

  lemma {:induction false} ServerOnly(id: Matcher.Id, e: seq<Matcher.Event>, acts: seq<JointAct>)
    requires |acts| == |e|
    requires forall i :: 0 <= i < |e| ==> acts[i] == AtServer(e[i]) && !PumpOfPair(e[i], id)
    ensures JointRun(id, acts) == Joint(Matcher.Run(Matcher.IDLE, e), RelaySystem.Idle())
  {
    hide Matcher.Step;
    if e != [] {
      ServerOnly(id, e[..|e| - 1], acts[..|acts| - 1]);
    }
  }

  /**
   Realization: for every session run without an error at the provider or a stopped node there is a run of the
   whole relay, matcher and all, in which the session's records on both nodes are the same.
   */
  lemma {:induction false} Realizes(id: Matcher.Id, u: Id, events: seq<Event>) returns (acts: seq<JointAct>)
    requires |u| == UUID_BYTES && Matcher.SPACE !in id
    requires forall e :: e in events ==> !e.BHalts? && !e.CHalts?
    requires !Run(START, events).c.past.fault
    ensures Synced(JointRun(id, acts), id, u, Run(START, events))
  {
    hide Step, JointRun, Synced, RelayProofs.Inv, Peaceful;
    if events == [] {
      acts := OpenedPair(id, u);
    } else {
      var before, event := events[..|events| - 1], events[|events| - 1];
      assert forall e :: e in before ==> e in events;
      assert event in events;
      RelayProofs.RunKeeps(before);
      FaultStays(Run(START, before), event);
      acts := Realizes(id, u, before);
      var more := SessionSteps(JointRun(id, acts), id, u, Run(START, before), event);
      AfterRun(id, acts, more);
      acts := acts + more;
    }
  }

  lemma NoHalts()
    ensures forall e :: e in RelayTheorems.Completing() ==> !e.BHalts? && !e.CHalts?
  {
    hide Run;
  }

  /** `JointDelivery` is not about nothing: a whole session that both nodes remove in peace. */
  lemma JointCompletes(id: Matcher.Id, u: Id) returns (acts: seq<JointAct>)
    requires |u| == UUID_BYTES && Matcher.SPACE !in id
    ensures var b, c := BOf(JointRun(id, acts).net, u), COf(JointRun(id, acts).net, u);
            && !b.past.fault && !c.past.fault && !c.race.overtaken && !c.race.earlyEof
            && b.created && !b.listed && c.created && !c.listed
            && b.io.read == [1] == c.io.wrote && c.io.read == [2] == b.io.wrote
  {
    RelayTheorems.CompletesOnce();
    NoHalts();
    hide Run, JointRun, RelayTheorems.Completing;
    acts := Realizes(id, u, RelayTheorems.Completing());
  }

  /** The window's reordering happens in the whole relay too. */
  lemma JointReorders(id: Matcher.Id, u: Id) returns (acts: seq<JointAct>)
    requires |u| == UUID_BYTES && Matcher.SPACE !in id
    ensures var b, c := BOf(JointRun(id, acts).net, u), COf(JointRun(id, acts).net, u);
            && !b.past.fault && !c.past.fault && b.io.read == [1, 2] && c.io.wrote == [2]
  {
    RelayTheorems.WindowReorders();
    var events := RelayTheorems.OPENING + [OnB(BRead([2]))] + [OnB(Append)] + [CTake(None)];
    acts := Realizes(id, u, events);
  }
}
