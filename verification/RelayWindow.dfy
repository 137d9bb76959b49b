/**
 Exactly when the provider gives its remote what the client sent, in the three situations in which the
 code may fail to: DATA or DATA_EOF handled before the arrival buffer is drained, and a remote that ends
 first.  Every law quantifies over the run before the situation and over all that can follow.
 */
module RelayWindow {
  import opened Octet
  import opened Options
  import opened Sequences
  import opened RelaySession
  import opened RelayProofs

  // ----- continuing a run -----

  lemma {:induction false} RunOn(s: Session, events: seq<Event>)
    requires Inv(s)
    ensures Inv(Run(s, events))
  {
    hide Inv, Step;
    if events != [] {
      var n := |events| - 1;
      RunOn(s, events[..n]);
      StepKeeps(Run(s, events[..n]), events[n]);
    }
  }

  /** The client bytes that the provider's reader handles in a step. */
  function Taken(s: Session, event: Event): seq<Byte> {
    if event.CTake? && s.up != [] then Payload(s.up[0]) else []
  }

  /** Whatever the provider has handled so far, the rest of what was read is in flight. */
  ghost predicate Intake(s: Session, handled: seq<Byte>) {
    s.b.io.read == handled + Pay(Up(s))
  }

  lemma IntakeStep(s: Session, event: Event, handled: seq<Byte>)
    requires Inv(s) && Intake(s, handled)
    ensures Intake(Step(s, event), handled + Taken(s, event))
  {
    assert handled + [] == handled;
    match event
    case OnB(act) => IntakeOnB(s, act, handled);
    case OnC(act) =>
      hide CStep, Inv, Pay;
    case BTake(fail) =>
      if s.down != [] && s.b.failing.Calm? {
        Parts(s);
        hide BReceive, Inv, Pay;
        BReceiveHolds(s.b, s.down[0], fail);
      }
    case CTake(fail) =>
      if s.up != [] {
        hide CReceive, Inv, Pay;
        PayTake(s.up, Pending(s.b.pump));
        Assoc(handled, Payload(s.up[0]), Pay(s.up[1..] + Pending(s.b.pump)));
      }
    case BHalts =>
      hide Inv, Pay;
    case CHalts =>
      hide Inv, Pay;
  }

  lemma IntakeOnB(s: Session, act: BAct, handled: seq<Byte>)
    requires Inv(s) && Intake(s, handled)
    ensures Intake(Step(s, OnB(act)), handled)
  {
    Parts(s);
    hide Step, Inv, VisitorShape, Pay, Moved;
    var t := Step(s, OnB(act));
    BStepReads(s, act);
    BStepMoves(s, act);
    if act.FailAppend? && s.b.failing.Telling? {
      PayInsert(s.up, Pending(s.b.pump));
    } else {
      MovedPay(s.up, s.b.pump, t.up, t.b.pump);
      Assoc(handled, Pay(Up(s)), if Decides(s.b.pump, t.b.pump) then Payload(t.b.pump.m) else []);
    }
  }

  // ----- conservation without regard to order -----

  /** The client bytes that the provider has written, has buffered or has dropped. */
  ghost function Bag(c: CSess): multiset<Byte> {
    multiset(c.io.wrote) + multiset(Flatten(c.buffer)) + multiset(c.io.lost)
  }

  lemma Halves(p: seq<Byte>, k: nat)
    requires k <= |p|
    ensures multiset(p[..k]) + multiset(p[k..]) == multiset(p)
  {
    assert p[..k] + p[k..] == p;
  }

  lemma BagDirect(c: CSess, p: seq<Byte>, fail: Option<nat>)
    ensures Bag(CDirect(c, p, fail)) == Bag(c) + multiset(p)
  {
    hide Flatten;
    if p == [] {
    } else if Usable(c.sock) && fail.None? {
    } else {
      Halves(p, if Usable(c.sock) then Min(fail.value, |p|) else 0);
    }
  }

  lemma BagData(c: CSess, p: seq<Byte>, fail: Option<nat>)
    ensures Bag(CData(c, p, fail)) == Bag(c) + multiset(p)
  {
    hide CDirect, Flatten;
    if c.listed && !c.ends.closed && c.dial.connected {
      BagDirect(c, p, fail);
    } else if c.listed && !c.ends.closed && c.dial.connecting {
      FlattenConcat(c.buffer, [p]);
      FlattenOne(p);
    } else {
    }
  }

  lemma BagReceive(c: CSess, m: Msg, fail: Option<nat>)
    requires m.New? ==> c == FRESH_C
    ensures Bag(CReceive(c, m, fail)) == Bag(c) + multiset(Payload(m))
  {
    hide CData, Flatten;
    match m
    case Data(p) => BagData(c.(past := Noted(c.past, m)), p, fail);
    case _ =>
  }

  lemma BagCStep(c: CSess, act: CAct)
    ensures Bag(CStep(c, act).0) == Bag(c)
  {
    var d := CStep(c, act).0;
    hide CStep;
    CStepHolds(c, act);
    BagOf(c.io.wrote, Flatten(c.buffer), c.io.lost);
    BagOf(d.io.wrote, Flatten(d.buffer), d.io.lost);
  }

  lemma BagOf(a: seq<Byte>, b: seq<Byte>, c: seq<Byte>)
    ensures multiset(a + (b + c)) == multiset(a) + multiset(b) + multiset(c)
  {
  }

  lemma BagStep(s: Session, event: Event)
    requires Inv(s)
    ensures Bag(Step(s, event).c) == Bag(s.c) + multiset(Taken(s, event))
  {
    if event.OnC? {
      BagCStep(s.c, event.cAct);
      hide CStep, Bag, Inv;
    } else if event.CTake? && s.up != [] {
      CTakeAnnounced(s, event.fail);
      BagReceive(s.c, s.up[0], event.fail);
      hide CReceive, Bag, Inv;
    } else {
      BagHalt(s.c);
      hide CHalt, Bag, Inv;
    }
  }

  lemma BagHalt(c: CSess)
    ensures Bag(CHalt(c)) == Bag(c)
  {
  }

  lemma {:induction false} BagRun(events: seq<Event>) returns (handled: seq<Byte>)
    ensures Intake(Run(START, events), handled) && Bag(Run(START, events).c) == multiset(handled)
  {
    handled := [];
    if events != [] {
      hide Inv, Step, Intake, Bag, Taken;
      var before, event := events[..|events| - 1], events[|events| - 1];
      var s := Run(START, before);
      RunKeeps(before);
      var sofar := BagRun(before);
      IntakeStep(s, event, sofar);
      BagStep(s, event);
      handled := sofar + Taken(s, event);
    }
  }

  /**
   In every run, races and failures included, no byte is invented, doubled or lost track of: those read from
   the client are, as a multiset, those written to the remote, buffered, dropped and in flight.
   */
  lemma {:induction false} BytesConserved(events: seq<Event>)
    ensures var s := Run(START, events);
            multiset(s.b.io.read) == Bag(s.c) + multiset(Pay(Up(s)))
  {
    hide Run, Bag;
    var handled := BagRun(events);
  }

  // ----- DATA before the buffer is drained -----

  /** What the provider does to a connected session's remote: a direct write, or one round of the drain. */
  datatype Move = Direct(p: seq<Byte>) | Drain

  function MoveOf(s: Session, event: Event): seq<Move> {
    match event
    case OnC(act) => if act.DrainOne? && CStep(s.c, act).0 != s.c then [Drain] else []
    case CTake(_) => if s.up != [] && s.up[0].Data? then [Direct(s.up[0].payload)] else []
    case _ => []
  }

  function Moves(s: Session, events: seq<Event>): seq<Move> {
    if events == [] then []
    else
      var before := events[..|events| - 1];
      Moves(s, before) + MoveOf(Run(s, before), events[|events| - 1])
  }

  /** The buffer that some moves leave, and the bytes that they give to the remote, in their order. */
  function Play(buffer: seq<seq<Byte>>, moves: seq<Move>): (seq<seq<Byte>>, seq<Byte>) {
    if moves == [] then (buffer, [])
    else
      var (left, given) := Play(buffer, moves[..|moves| - 1]);
      match moves[|moves| - 1]
      case Direct(p) => (left, given + p)
      case Drain => if left == [] then (left, given) else (left[1..], given + left[0])
  }

  /** The payloads of the direct writes, in the order the client sent them. */
  function Directs(moves: seq<Move>): seq<Byte> {
    if moves == [] then []
    else
      Directs(moves[..|moves| - 1]) + (if moves[|moves| - 1].Direct? then moves[|moves| - 1].p else [])
  }

  /** The bytes given to the remote once the drain is through, if no further DATA is handled before. */
  function Order(buffer: seq<seq<Byte>>, moves: seq<Move>): seq<Byte> {
    Play(buffer, moves).1 + Flatten(Play(buffer, moves).0)
  }

  /** A connected session that its provider still lists, and that has met no error there. */
  ghost predicate Open(c: CSess) {
    c.created && c.listed && !c.ends.closed && c.dial.connected && !c.past.fault
  }

  lemma PlaySnoc(buffer: seq<seq<Byte>>, moves: seq<Move>, move: Move)
    ensures Play(buffer, moves + [move]) ==
            var (left, given) := Play(buffer, moves);
            match move
            case Direct(p) => (left, given + p)
            case Drain => if left == [] then (left, given) else (left[1..], given + left[0])
    ensures Directs(moves + [move]) == Directs(moves) + (if move.Direct? then move.p else [])
  {
    assert (moves + [move])[..|moves|] == moves;
  }

  /** No byte is added or dropped by the moves. */
  lemma {:induction false} PlayCounts(buffer: seq<seq<Byte>>, moves: seq<Move>)
    ensures |Order(buffer, moves)| == |Flatten(buffer)| + |Directs(moves)|
  {
    if moves != [] {
      PlayCounts(buffer, moves[..|moves| - 1]);
    }
  }

  /** A connection once made stays a fact, and no step reopens a session or undoes a fault. */
  lemma OpenBefore(s: Session, event: Event)
    requires Inv(s) && s.c.created && s.c.dial.connected
    ensures var t := Step(s, event);
            t.c.created && t.c.dial.connected && (Open(t.c) ==> Open(s.c))
  {
    match event {
      case OnC(act) => OpenActs(s.c, act);
      case CTake(fail) =>
        if s.up != [] {
          CTakeAnnounced(s, fail);
          OpenReceive(s.c, s.up[0], fail);
        }
      case _ =>
    }
  }

  lemma OpenActs(c: CSess, act: CAct)
    requires ProviderShape(c) && c.created && c.dial.connected
    ensures var d := CStep(c, act).0; d.created && d.dial.connected && (Open(d) ==> Open(c))
  {
    match act
    case CResume => if c.pump.Sent? && c.pump.m.Data? {}
    case _ =>
  }

  lemma OpenReceive(c: CSess, m: Msg, fail: Option<nat>)
    requires c.created && c.dial.connected && !m.New?
    ensures var d := CReceive(c, m, fail); d.created && d.dial.connected && (Open(d) ==> Open(c))
  {
  }

  /** What one step does to the remote and the buffer of an open session is its move. */
  lemma OpenStep(s: Session, event: Event)
    requires Inv(s) && Open(s.c) && Open(Step(s, event).c)
    ensures var t := Step(s, event); var moves := MoveOf(s, event);
            && |moves| <= 1
            && (moves == [] ==> t.c.io.wrote == s.c.io.wrote && t.c.buffer == s.c.buffer && Taken(s, event) == [])
            && (moves == [Drain] ==>
                  && s.c.buffer != [] && t.c.buffer == s.c.buffer[1..] && Taken(s, event) == []
                  && t.c.io.wrote == s.c.io.wrote + s.c.buffer[0])
            && (moves != [] && moves[0].Direct? ==>
                  && t.c.buffer == s.c.buffer && Taken(s, event) == moves[0].p
                  && t.c.io.wrote == s.c.io.wrote + moves[0].p)
  {
    match event {
      case OnC(act) => OpenCStep(s.c, act);
      case CTake(fail) =>
        if s.up != [] {
          CTakeAnnounced(s, fail);
          OpenTake(s.c, s.up[0], fail);
        }
      case _ =>
    }
  }

  lemma OpenCStep(c: CSess, act: CAct)
    requires ProviderShape(c) && Open(c) && Open(CStep(c, act).0)
    ensures var d := CStep(c, act).0;
            if act.DrainOne? && d != c
            then c.buffer != [] && d.buffer == c.buffer[1..] && d.io.wrote == c.io.wrote + c.buffer[0]
            else d.io.wrote == c.io.wrote && d.buffer == c.buffer
  {
    if !act.DrainOne? && !act.DrainFail? {
      CStepSame(c, act);
    }
  }

  lemma OpenTake(c: CSess, m: Msg, fail: Option<nat>)
    requires Open(c) && !m.New? && Open(CReceive(c, m, fail))
    ensures var d := CReceive(c, m, fail); d.io.wrote == c.io.wrote + Payload(m) && d.buffer == c.buffer
  {
    assert c.io.wrote + [] == c.io.wrote;
    if m.Data? && m.payload != [] && !(Usable(c.sock) && fail.None?) {
    }
  }

  /** An open session that has not been overtaken holds exactly the client bytes handled so far. */
  lemma OpenHolds(s: Session)
    requires Inv(s) && Open(s.c) && !s.c.race.overtaken
    ensures Intake(s, s.c.io.wrote + Flatten(s.c.buffer))
  {
    assert s.c.io.lost == [];
    Assoc(s.c.io.wrote, Flatten(s.c.buffer), Pay(Up(s)));
    assert [] + Pay(Up(s)) == Pay(Up(s));
  }

  lemma {:induction false} Played(s: Session, events: seq<Event>)
    requires Inv(s) && Open(s.c) && !s.c.race.overtaken
    ensures var t := Run(s, events);
            && t.c.created && t.c.dial.connected
            && (Open(t.c) ==>
                  var moves := Moves(s, events);
                  && t.c.buffer == Play(s.c.buffer, moves).0
                  && t.c.io.wrote == s.c.io.wrote + Play(s.c.buffer, moves).1
                  && Intake(t, s.c.io.wrote + Flatten(s.c.buffer) + Directs(moves)))
  {
    var handled := s.c.io.wrote + Flatten(s.c.buffer);
    if events == [] {
      OpenHolds(s);
      assert s.c.io.wrote + [] == s.c.io.wrote && handled + [] == handled;
    } else {
      hide Inv, Step, Play, Directs, Intake, Open, Taken, MoveOf;
      var before, event := events[..|events| - 1], events[|events| - 1];
      Played(s, before);
      RunOn(s, before);
      OpenBefore(Run(s, before), event);
      if Open(Run(s, events).c) {
        PlayedStep(s, Moves(s, before), Run(s, before), event);
      }
    }
  }

  lemma PlayedStep(s: Session, moves: seq<Move>, u: Session, event: Event)
    requires Inv(u) && Open(u.c) && Open(Step(u, event).c)
    requires u.c.buffer == Play(s.c.buffer, moves).0 && u.c.io.wrote == s.c.io.wrote + Play(s.c.buffer, moves).1
    requires Intake(u, s.c.io.wrote + Flatten(s.c.buffer) + Directs(moves))
    ensures var t := Step(u, event); var all := moves + MoveOf(u, event);
            && t.c.buffer == Play(s.c.buffer, all).0
            && t.c.io.wrote == s.c.io.wrote + Play(s.c.buffer, all).1
            && Intake(t, s.c.io.wrote + Flatten(s.c.buffer) + Directs(all))
  {
    hide Inv, Step, Play, Directs, Intake, Open, Taken, MoveOf, Flatten;
    var handled, more := s.c.io.wrote + Flatten(s.c.buffer), MoveOf(u, event);
    var given := Play(s.c.buffer, moves).1;
    OpenStep(u, event);
    IntakeStep(u, event, handled + Directs(moves));
    Assoc(handled, Directs(moves), Taken(u, event));
    if more == [] {
      assert moves + more == moves && Directs(moves) + [] == Directs(moves);
    } else {
      assert more == [more[0]];
      PlaySnoc(s.c.buffer, moves, more[0]);
      if more[0].Direct? {
        Assoc(s.c.io.wrote, given, more[0].p);
      } else {
        assert Directs(moves) + [] == Directs(moves);
        Assoc(s.c.io.wrote, given, u.c.buffer[0]);
      }
    }
  }

  /**
   Exactly when order is kept, over every run and everything that can happen while the session stays open.
   With the buffer drained, or once it will be, the remote is given a prefix of the client's bytes if and
   only if the moves give out the buffer first and the direct writes after it, as byte strings.
   */
  lemma {:induction false} WindowExact(before: seq<Event>, after: seq<Event>)
    requires var s := Run(START, before); Open(s.c) && !s.c.race.overtaken && Open(Run(s, after).c)
    ensures var s := Run(START, before); var t := Run(s, after); var moves := Moves(s, after);
            && t.c.io.wrote + Flatten(t.c.buffer) == s.c.io.wrote + Order(s.c.buffer, moves)
            && (t.c.io.wrote + Flatten(t.c.buffer) <= t.b.io.read <==>
                  Order(s.c.buffer, moves) == Flatten(s.c.buffer) + Directs(moves))
  {
    RunKeeps(before);
    var s := Run(START, before);
    var t, moves := Run(s, after), Moves(s, after);
    hide Run, Moves, Inv;
    Played(s, after);
    PlayCounts(s.c.buffer, moves);
    Assoc(s.c.io.wrote, Play(s.c.buffer, moves).1, Flatten(t.c.buffer));
    Assoc(s.c.io.wrote, Flatten(s.c.buffer), Directs(moves));
    SameLength(s.c.io.wrote, Order(s.c.buffer, moves), Flatten(s.c.buffer) + Directs(moves), Pay(Up(t)));
  }

  lemma SameLength(a: seq<Byte>, x: seq<Byte>, y: seq<Byte>, rest: seq<Byte>)
    requires |x| == |y|
    ensures a + x <= (a + y) + rest <==> x == y
  {
    assert ((a + y) + rest)[..|a + x|] == a + y;
    assert (a + x)[|a|..] == x && (a + y)[|a|..] == y;
  }

  /** Before its connect has completed a remote is given nothing, and nothing is overtaken. */
  ghost predicate Untouched(c: CSess) {
    !c.dial.connected ==> c.io.wrote == [] && !c.race.overtaken
  }

  lemma {:induction false} RunUntouched(events: seq<Event>)
    ensures Untouched(Run(START, events).c)
  {
    if events != [] {
      hide Step, Inv, Untouched;
      var before, event := events[..|events| - 1], events[|events| - 1];
      RunUntouched(before);
      RunKeeps(before);
      StepUntouched(Run(START, before), event);
    } else {
      assert Untouched(START.c);
    }
  }

  lemma StepUntouched(s: Session, event: Event)
    requires Inv(s) && Untouched(s.c)
    ensures Untouched(Step(s, event).c)
  {
    Parts(s);
    hide Inv;
    match event {
      case OnC(act) => CStepUntouched(s.c, act);
      case CTake(fail) => if s.up != [] { ReceiveUntouched(s.c, s.up[0], fail); }
      case _ =>
    }
  }

  lemma CStepUntouched(c: CSess, act: CAct)
    requires ProviderShape(c) && Untouched(c)
    ensures Untouched(CStep(c, act).0)
  {
    CStepFrame(c, act);
    CStepDials(c, act);
    if act.DrainOne? || act.DrainFail? {
      assert CStep(c, act).0 != c ==> c.pump.Draining?;
    } else {
      CStepSame(c, act);
    }
    hide CStep, ProviderShape;
  }

  lemma CStepDials(c: CSess, act: CAct)
    ensures !act.DialOk? ==> CStep(c, act).0.dial == c.dial
  {
    match act
    case CResume => if c.pump.Sent? { match c.pump.m case Data(_) => case _ => }
    case _ =>
  }

  lemma ReceiveUntouched(c: CSess, m: Msg, fail: Option<nat>)
    requires Untouched(c)
    ensures Untouched(CReceive(c, m, fail))
  {
    if m.Data? {
      var t := c.(past := Noted(c.past, m));
      if t.listed && !t.ends.closed && t.dial.connected {
        hide CDirect;
        DirectDials(t, m.payload, fail);
      }
    }
  }

  lemma DirectDials(c: CSess, p: seq<Byte>, fail: Option<nat>)
    ensures CDirect(c, p, fail).dial == c.dial
  {
  }

  /** The same law from the completion of the connect on, where nothing can have been overtaken yet. */
  lemma {:induction false} ConnectExact(before: seq<Event>, after: seq<Event>)
    requires var r := Run(START, before);
             && r.c.pump.Dialing? && r.c.listed && !r.c.ends.closed && !r.c.past.fault
             && Open(Run(Step(r, OnC(DialOk)), after).c)
    ensures var s := Step(Run(START, before), OnC(DialOk)); var t := Run(s, after); var moves := Moves(s, after);
            && s.c.io.wrote == []
            && t.c.io.wrote + Flatten(t.c.buffer) == Order(s.c.buffer, moves)
            && (t.c.io.wrote + Flatten(t.c.buffer) <= t.b.io.read <==>
                  Order(s.c.buffer, moves) == Flatten(s.c.buffer) + Directs(moves))
  {
    RunKeeps(before);
    RunUntouched(before);
    var r := Run(START, before);
    var s := Step(r, OnC(DialOk));
    assert (before + [OnC(DialOk)])[..|before|] == before;
    assert Run(START, before + [OnC(DialOk)]) == s;
    assert Open(s.c) && !s.c.race.overtaken && s.c.io.wrote == [];
    hide Run, Step, Inv, Order, Moves, Open;
    WindowExact(before + [OnC(DialOk)], after);
    assert [] + Order(s.c.buffer, Moves(s, after)) == Order(s.c.buffer, Moves(s, after));
  }

  /** The guard that a provider could test: nothing but empty payloads is written past buffered bytes. */
  ghost predicate Quiet(buffer: seq<seq<Byte>>, moves: seq<Move>) {
    moves == [] ||
    (var (init, last) := (moves[..|moves| - 1], moves[|moves| - 1]);
     Quiet(buffer, init) && (last.Direct? ==> last.p == [] || Flatten(Play(buffer, init).0) == []))
  }

  /** Under that guard order is kept. */
  lemma {:induction false} QuietInOrder(buffer: seq<seq<Byte>>, moves: seq<Move>)
    requires Quiet(buffer, moves)
    ensures Order(buffer, moves) == Flatten(buffer) + Directs(moves)
  {
    if moves == [] {
      assert [] + Flatten(buffer) == Flatten(buffer) + [];
    } else {
      var init, last := moves[..|moves| - 1], moves[|moves| - 1];
      QuietInOrder(buffer, init);
      var (left, given) := Play(buffer, init);
      match last
      case Direct(p) =>
        Assoc(Flatten(buffer), Directs(init), p);
        if p == [] {
          assert given + p == given && Directs(init) + p == Directs(init);
        } else {
          assert given + [] == given && given + p + [] == given + p;
        }
      case Drain =>
        assert Directs(init) + [] == Directs(init);
        if left != [] {
          Assoc(given, left[0], Flatten(left[1..]));
        }
    }
  }

  /** Any number of direct writes before the first round of the drain: they all go out first. */
  lemma {:induction false} DirectsFirst(buffer: seq<seq<Byte>>, moves: seq<Move>)
    requires Drain !in moves
    ensures Play(buffer, moves) == (buffer, Directs(moves))
    ensures Order(buffer, moves) == Directs(moves) + Flatten(buffer)
  {
    if moves != [] {
      var init := moves[..|moves| - 1];
      assert forall m :: m in init ==> m in moves;
      DirectsFirst(buffer, init);
    }
  }

  /**
   Several direct writes before the drain begins: with `p` their bytes and `f` the buffered ones, order is
   kept if and only if `p` followed by `f` is the same as `f` followed by `p`.
   */
  lemma {:induction false} DirectWritesExact(before: seq<Event>, after: seq<Event>)
    requires var s := Run(START, before);
             Open(s.c) && !s.c.race.overtaken && Open(Run(s, after).c) && Drain !in Moves(s, after)
    ensures var s := Run(START, before); var t := Run(s, after);
            var p, f := Directs(Moves(s, after)), Flatten(s.c.buffer);
            && t.c.buffer == s.c.buffer && t.c.io.wrote == s.c.io.wrote + p
            && (t.c.io.wrote + f <= t.b.io.read <==> p + f == f + p)
  {
    RunKeeps(before);
    var s := Run(START, before);
    hide Run, Moves, Inv;
    WindowExact(before, after);
    Played(s, after);
    DirectsFirst(s.c.buffer, Moves(s, after));
  }

  /** DATA is about to be written directly to a remote that works. */
  ghost predicate InWindow(s: Session, p: seq<Byte>) {
    && s.up != [] && s.up[0] == Data(p)
    && s.c.listed && !s.c.ends.closed && s.c.dial.connected && Usable(s.c.sock)
    && !s.c.race.overtaken
  }

  /** What is left of the coroutine until the drain loop begins, and then `n` rounds of it. */
  function Settle(pump: Pump, n: nat): seq<Event> {
    (match pump
     case Sending(_) => [OnC(CAppend), OnC(CResume)]
     case Sent(_) => [OnC(CResume)]
     case _ => []) + seq(n, _ => OnC(DrainOne))
  }

  lemma DrainsOne(s: Session)
    requires s.c.pump.Draining? && Usable(s.c.sock) && s.c.buffer != []
    ensures Step(s, OnC(DrainOne)).c == s.c.(io := Write(s.c.io, s.c.buffer[0]), buffer := s.c.buffer[1..])
    ensures Step(s, OnC(DrainOne)).b == s.b && Step(s, OnC(DrainOne)).up == s.up
  {
  }

  lemma TakeOne(buffer: seq<seq<Byte>>, n: nat)
    requires 0 < n <= |buffer|
    ensures buffer[n - 1..][0] == buffer[n - 1] && buffer[n - 1..][1..] == buffer[n..]
    ensures Flatten(buffer[..n]) == Flatten(buffer[..n - 1]) + buffer[n - 1]
  {
    assert buffer[..n] == buffer[..n - 1] + [buffer[n - 1]];
    FlattenConcat(buffer[..n - 1], [buffer[n - 1]]);
    FlattenOne(buffer[n - 1]);
  }

  /** Left to itself the coroutine writes the buffer behind what has been written. */
  lemma {:induction false} DrainRuns(s: Session, n: nat)
    requires s.c.pump.Draining? && Usable(s.c.sock) && n <= |s.c.buffer|
    ensures var t := Run(s, seq(n, _ => OnC(DrainOne)));
            && t.b == s.b && t.up == s.up && t.c.pump.Draining? && t.c.sock == s.c.sock
            && t.c.buffer == s.c.buffer[n..]
            && t.c.io.wrote == s.c.io.wrote + Flatten(s.c.buffer[..n])
  {
    hide Step, Usable, Flatten;
    var all := seq(n, _ => OnC(DrainOne));
    if n == 0 {
      FlattenNone();
      assert s.c.io.wrote + [] == s.c.io.wrote;
    } else {
      assert all[..n - 1] == seq(n - 1, _ => OnC(DrainOne));
      DrainRuns(s, n - 1);
      TakeOne(s.c.buffer, n);
      DrainsOne(Run(s, all[..n - 1]));
      Assoc(s.c.io.wrote, Flatten(s.c.buffer[..n - 1]), s.c.buffer[n - 1]);
    }
  }

  lemma FlattenNone()
    ensures Flatten<Byte>([]) == []
  {
  }

  lemma Unfold(s: Session, first: Event, second: Event)
    ensures Run(s, [first]) == Step(s, first)
    ensures Run(s, [first, second]) == Step(Step(s, first), second)
  {
    assert [first][..0] == [] && [first, second][..1] == [first];
  }

  /** The same with the connect's own two steps in front. */
  lemma SettleRuns(s: Session)
    requires Usable(s.c.sock)
    requires s.c.pump == Sending(Ok) || s.c.pump == Sent(Ok) || s.c.pump.Draining?
    ensures var t := Run(s, Settle(s.c.pump, |s.c.buffer|));
            && t.b == s.b && t.up == s.up && t.c.buffer == []
            && t.c.io.wrote == s.c.io.wrote + Flatten(s.c.buffer)
  {
    var drains := seq(|s.c.buffer|, _ => OnC(DrainOne));
    var opening := match s.c.pump
      case Sending(_) => [OnC(CAppend), OnC(CResume)]
      case Sent(_) => [OnC(CResume)]
      case _ => [];
    RunConcat(s, opening, drains);
    Unfold(s, OnC(CResume), OnC(CResume));
    Unfold(s, OnC(CAppend), OnC(CResume));
    DrainRuns(Run(s, opening), |s.c.buffer|);
    assert s.c.buffer[..|s.c.buffer|] == s.c.buffer && s.c.buffer[|s.c.buffer|..] == [];
  }

  /**
   One direct write, through the drain that must follow: handled while `f` is still buffered, a payload `p`
   leaves the remote with a prefix of the client's bytes if and only if `p + f == f + p`.
   */
  lemma {:induction false} DirectWriteExact(before: seq<Event>, p: seq<Byte>)
    requires InWindow(Run(START, before), p)
    ensures var s := Run(START, before); var f := Flatten(s.c.buffer);
            s.c.io.wrote + p + f <= s.b.io.read <==> p + f == f + p
    ensures var s := Run(START, before); var f := Flatten(s.c.buffer); var t := Step(s, CTake(None));
            s.c.buffer != [] ==>
              var u := Run(t, Settle(t.c.pump, |t.c.buffer|));
              u.c.buffer == [] && u.c.io.wrote == s.c.io.wrote + p + f && u.b == s.b
  {
    RunKeeps(before);
    var s := Run(START, before);
    hide Run, Settle, Step, Inv, InWindow;
    DirectOrder(s, p);
    if s.c.buffer != [] {
      DirectTaken(s, p);
      SettleRuns(Step(s, CTake(None)));
    }
  }

  lemma DirectOrder(s: Session, p: seq<Byte>)
    requires Inv(s) && InWindow(s, p)
    ensures var f := Flatten(s.c.buffer); s.c.io.wrote + p + f <= s.b.io.read <==> p + f == f + p
  {
    var f, rest := Flatten(s.c.buffer), Pay(s.up[1..] + Pending(s.b.pump));
    DirectParts(s, p);
    hide Inv, InWindow, Flatten, Pay;
    Shuffled(s.c.io.wrote, f, p, rest);
    Assoc(s.c.io.wrote, p, f);
    SameLength(s.c.io.wrote, p + f, f + p, rest);
  }

  lemma DirectParts(s: Session, p: seq<Byte>)
    requires Inv(s) && InWindow(s, p)
    ensures s.b.io.read == s.c.io.wrote + (Flatten(s.c.buffer) + ([] + (p + Pay(s.up[1..] + Pending(s.b.pump)))))
  {
    hide Pay, Ordered, Announced, DownConserved;
    PayTake(s.up, Pending(s.b.pump));
    assert s.c.io.lost == [];
  }

  lemma Shuffled(wrote: seq<Byte>, f: seq<Byte>, p: seq<Byte>, rest: seq<Byte>)
    ensures wrote + (f + ([] + (p + rest))) == (wrote + (f + p)) + rest
  {
  }

  lemma DirectTaken(s: Session, p: seq<Byte>)
    requires Inv(s) && InWindow(s, p) && s.c.buffer != []
    ensures var t := Step(s, CTake(None));
            && t.b == s.b && t.c.buffer == s.c.buffer && t.c.io.wrote == s.c.io.wrote + p && Usable(t.c.sock)
            && (t.c.pump == Sending(Ok) || t.c.pump == Sent(Ok) || t.c.pump.Draining?)
  {
    assert s.c.io.wrote + [] == s.c.io.wrote;
  }

  // ----- DATA_EOF before the buffer is drained -----

  /** DATA_EOF is about to be handled for a connected session. */
  ghost predicate EofNext(s: Session) {
    s.up != [] && s.up[0].Eof? && s.c.listed && s.c.dial.connected
  }

  /** The remote's send side is shut and the client's end of file is handled: nothing moves any more. */
  ghost predicate Sealed(s: Session) {
    s.c.created && s.c.dial.connected && s.c.sock.shut && s.c.past.gotEof
  }

  /** What the provider has accepted for the remote and not written. */
  function Withheld(c: CSess): seq<Byte> {
    Flatten(c.buffer) + c.io.lost
  }

  ghost predicate SameBytes(s: Session, t: Session) {
    t.c.io.wrote == s.c.io.wrote && Withheld(t.c) == Withheld(s.c) && t.b.io.read == s.b.io.read
  }

  lemma SealedStep(s: Session, event: Event)
    requires Inv(s) && Sealed(s)
    ensures var t := Step(s, event); Sealed(t) && SameBytes(s, t)
  {
    hide Flatten;
    match event {
      case OnB(act) =>
        Parts(s);
        SpentReads(s, act);
      case OnC(act) => SealedCStep(s.c, act);
      case BTake(fail) =>
        if s.down != [] && s.b.failing.Calm? {
          Parts(s);
          hide BReceive;
          BReceiveHolds(s.b, s.down[0], fail);
        }
      case CTake(fail) =>
        if s.up != [] {
          CTakeAnnounced(s, fail);
          TakenOrdered(s.up, s.b.pump, s.c.past.gotEof);
          assert !s.up[0].Data?;
        }
      case _ =>
    }
  }

  /** After its end of file the client is not read any more. */
  lemma SpentReads(s: Session, act: BAct)
    requires Announced(s) && VisitorShape(s.b) && s.b.created && Ordered(s.up, s.b.pump, true)
    ensures Step(s, OnB(act)).b.io.read == s.b.io.read
  {
    hide Announced, VisitorShape, EofLast, NoData, NoEof;
    assert Spent(s.b.pump);
  }

  lemma SealedCStep(c: CSess, act: CAct)
    requires ProviderShape(c) && c.created && c.dial.connected && c.sock.shut
    ensures var d := CStep(c, act).0;
            && d.created && d.dial.connected && d.sock.shut && d.past.gotEof == c.past.gotEof
            && d.io.wrote == c.io.wrote && Withheld(d) == Withheld(c)
  {
    CStepFrame(c, act);
    SealedWithholds(c, act);
    if act.DrainOne? || act.DrainFail? {
      assert c.io.wrote + [] == c.io.wrote;
    } else {
      CStepSame(c, act);
      if act.CResume? && c.pump.Sent? {
        match c.pump.m case Data(_) => case _ =>
      }
    }
  }

  lemma SealedWithholds(c: CSess, act: CAct)
    ensures var d := CStep(c, act).0; d.io.wrote == c.io.wrote ==> Withheld(d) == Withheld(c)
  {
    hide CStep, Flatten;
    CStepHolds(c, act);
    Tails(c.io.wrote, Withheld(CStep(c, act).0), Withheld(c));
  }

  lemma Tails(a: seq<Byte>, x: seq<Byte>, y: seq<Byte>)
    ensures a + x == a + y ==> x == y
  {
    assert (a + x)[|a|..] == x && (a + y)[|a|..] == y;
  }

  lemma {:induction false} SealedRun(s: Session, events: seq<Event>)
    requires Inv(s) && Sealed(s)
    ensures var t := Run(s, events); Sealed(t) && SameBytes(s, t)
  {
    if events != [] {
      hide Inv, Step, Sealed, Withheld;
      var init := events[..|events| - 1];
      SealedRun(s, init);
      RunOn(s, init);
      SealedStep(Run(s, init), events[|events| - 1]);
    }
  }

  /** The bytes read from the client, counted: races do not change how many there are. */
  lemma {:induction false} Counted(events: seq<Event>)
    ensures var s := Run(START, events);
            |s.b.io.read| == |s.c.io.wrote| + |Flatten(s.c.buffer)| + |s.c.io.lost| + |Pay(Up(s))|
  {
    hide Run, Flatten, Pay;
    BytesConserved(events);
    var s := Run(START, events);
    assert |multiset(s.b.io.read)| == |Bag(s.c)| + |multiset(Pay(Up(s)))|;
  }

  /** Behind an end of file nothing is in flight. */
  lemma EofAhead(s: Session)
    requires Inv(s) && EofNext(s)
    ensures Pay(Up(s)) == []
  {
    hide Pay, Announced, VisitorOk, ProviderOk, DownConserved, UpConserved;
    FlagsTake(s.up, Pending(s.b.pump));
    PayTake(s.up, Pending(s.b.pump));
    PayNone(s.up[1..] + Pending(s.b.pump));
  }

  lemma EofTaken(s: Session)
    requires Inv(s) && EofNext(s)
    ensures var t := Step(s, CTake(None)); Inv(t) && Sealed(t) && SameBytes(s, t)
  {
    StepKeeps(s, CTake(None));
    CTakeAnnounced(s, None);
    hide Inv, Flatten;
  }

  /**
   Exactly when DATA_EOF is handled in time: in every run and every continuation the remote is shut with
   all the client's bytes written if and only if none was buffered or dropped by then and those already
   written were in order, which `WindowExact` decides.  What was withheld is never written any more.
   */
  lemma {:induction false} EofExact(before: seq<Event>, after: seq<Event>)
    requires EofNext(Run(START, before))
    ensures var s := Run(START, before); var t := Run(Step(s, CTake(None)), after);
            && t.c.sock.shut
            && (t.c.io.wrote == t.b.io.read <==> Withheld(s.c) == [] && s.c.io.wrote <= s.b.io.read)
            && (t.c.sock.shutAt == |t.b.io.read| <==> Withheld(s.c) == [])
            && t.c.io.wrote == s.c.io.wrote && Withheld(t.c) == Withheld(s.c)
            && (t.c.buffer != [] && t.c.buffer[0] != [] ==> Step(t, OnC(DrainOne)) == t && Step(t, OnC(DrainEnd)) == t)
  {
    RunKeeps(before);
    Counted(before);
    var s := Run(START, before);
    var t0 := Step(s, CTake(None));
    var t := Run(t0, after);
    EofTaken(s);
    EofAhead(s);
    hide Run, Step;
    SealedRun(t0, after);
    RunOn(t0, after);
    assert |s.b.io.read| == |s.c.io.wrote| + |Withheld(s.c)|;
    assert s.c.io.wrote <= s.b.io.read && Withheld(s.c) == [] ==> s.c.io.wrote == s.b.io.read;
    if t.c.buffer != [] && t.c.buffer[0] != [] {
      ShutDrains(t);
    }
  }

  lemma ShutDrains(t: Session)
    requires t.c.sock.shut && t.c.buffer != [] && t.c.buffer[0] != []
    ensures Step(t, OnC(DrainOne)) == t && Step(t, OnC(DrainEnd)) == t
  {
    assert t.down + [] == t.down;
  }

  // ----- the remote ends first -----

  /** The provider has erased the session and its coroutine has ended. */
  ghost predicate Erased(s: Session) {
    s.c.created && !s.c.listed && s.c.pump.Done?
  }

  lemma ErasedStep(s: Session, event: Event)
    requires Inv(s) && Erased(s)
    ensures var t := Step(s, event); Erased(t) && t.c.io.wrote == s.c.io.wrote && s.b.io.read <= t.b.io.read
  {
    Parts(s);
    match event {
      case OnB(act) =>
        hide BStep;
        BStepReads(s, act);
      case BTake(fail) =>
        if s.down != [] && s.b.failing.Calm? {
          hide BReceive;
          BReceiveHolds(s.b, s.down[0], fail);
        }
      case CTake(fail) => if s.up != [] { CTakeAnnounced(s, fail); }
      case _ =>
    }
  }

  lemma {:induction false} ErasedRun(s: Session, events: seq<Event>)
    requires Inv(s) && Erased(s)
    ensures var t := Run(s, events); Erased(t) && t.c.io.wrote == s.c.io.wrote && s.b.io.read <= t.b.io.read
  {
    if events != [] {
      hide Inv, Step, Erased;
      var init := events[..|events| - 1];
      ErasedRun(s, init);
      RunOn(s, init);
      ErasedStep(Run(s, init), events[|events| - 1]);
    }
  }

  /**
   Exactly when an erased session is complete, whatever happens later: if and only if at that moment
   nothing was buffered, dropped or in flight, what was written was in order, and the client is never
   read again.
   */
  lemma {:induction false} ErasureExact(before: seq<Event>, after: seq<Event>)
    requires Erased(Run(START, before))
    ensures var s := Run(START, before); var t := Run(s, after);
            t.c.io.wrote == t.b.io.read <==>
              && Withheld(s.c) == [] && Pay(Up(s)) == [] && s.c.io.wrote <= s.b.io.read
              && t.b.io.read == s.b.io.read
  {
    RunKeeps(before);
    Counted(before);
    var s := Run(START, before);
    var t := Run(s, after);
    hide Run, Step, Pay, Flatten;
    ErasedRun(s, after);
    assert |s.b.io.read| == |s.c.io.wrote| + |Withheld(s.c)| + |Pay(Up(s))|;
    if Withheld(s.c) == [] && Pay(Up(s)) == [] && s.c.io.wrote <= s.b.io.read {
      assert s.b.io.read == s.c.io.wrote + [];
    }
  }

  /**
   The remote's end of file: the provider's DATA_EOF is on the link and the coroutine resumes.  The remote
   ends up with all the client's bytes if and only if those written are in order, none was dropped so far,
   none is in flight at this moment, and none is read from the client after it.
   */
  lemma {:induction false} RemoteEndExact(before: seq<Event>, after: seq<Event>)
    requires Run(START, before).c.pump == Sent(Eof)
    ensures var r := Run(START, before); var t := Run(Step(r, OnC(CResume)), after);
            t.c.io.wrote == t.b.io.read <==>
              r.c.io.lost == [] && Pay(Up(r)) == [] && r.c.io.wrote <= r.b.io.read && t.b.io.read == r.b.io.read
  {
    RunKeeps(before);
    var r := Run(START, before);
    assert (before + [OnC(CResume)])[..|before|] == before;
    assert Run(START, before + [OnC(CResume)]) == Step(r, OnC(CResume));
    EndErases(r);
    hide Run, Step, Inv, Erased, Flatten, Pay;
    FlattenNone();
    assert [] + r.c.io.lost == r.c.io.lost;
    ErasureExact(before + [OnC(CResume)], after);
  }

  /** The step that erases it: the buffer is empty by then, and nothing else changes. */
  lemma EndErases(r: Session)
    requires Inv(r) && r.c.pump == Sent(Eof)
    ensures var s := Step(r, OnC(CResume));
            && Erased(s) && s.c.buffer == [] && s.c.io == r.c.io && s.c.race == r.c.race && s.b == r.b && s.up == r.up
  {
  }
}
