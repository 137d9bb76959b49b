/**
 How sessions end other than in peace: refusals, closes and errors, on both nodes and in every run.  Each
 law says outright what the tables, flags, sockets and links are afterwards.
 */
module RelayEndings {
  import opened Octet
  import opened Options
  import opened Sequences
  import opened RelaySession
  import opened RelayProofs

  /** The visitor is done with the session: it is closed, no longer in the table, and its client is closed. */
  predicate Dropped(b: BSess) {
    b.ends.closed && !b.listed && !b.sock.open
  }

  /** The provider is done with it: closed, no longer in the table, and the remote closed if there was one. */
  predicate Ended(c: CSess) {
    c.ends.closed && !c.listed && (c.dial.connected ==> !c.sock.open)
  }

  /** Its coroutine is over and has erased it. */
  predicate Finished(c: CSess) {
    c.ends.closed && !c.listed && c.pump.Done?
  }

  // ----- frames that end a session -----

  /** SESSION_ERR and SESSION_CLOSE, handled for a listed session, close its client and erase it. */
  lemma RefusalDrops(events: seq<Event>, fail: Option<nat>)
    requires var s := Run(START, events);
             s.down != [] && (s.down[0].Err? || s.down[0].Close?) && s.b.listed && s.b.failing.Calm?
    ensures var s := Run(START, events); var t := Step(s, BTake(fail));
            && Dropped(t.b) && t.down == s.down[1..] && t.up == s.up && t.c == s.c
            && t.b.pump == s.b.pump && t.b.io == s.b.io
  {
    hide Run;
  }

  /** SESSION_CLOSE, handled for a listed session, closes its remote and erases it. */
  lemma CloseEnds(events: seq<Event>, fail: Option<nat>)
    requires var s := Run(START, events); s.up != [] && s.up[0].Close? && s.c.listed
    ensures var s := Run(START, events); var t := Step(s, CTake(fail));
            && Ended(t.c) && t.up == s.up[1..] && t.down == s.down && t.b == s.b
            && t.c.pump == s.c.pump && t.c.io == s.c.io && t.c.buffer == s.c.buffer
  {
    hide Run;
  }

  /** What is not in the table is not touched: a frame for it is noted, its payload dropped. */
  lemma StrayFrames(events: seq<Event>, fail: Option<nat>)
    ensures var s := Run(START, events); var t := Step(s, BTake(fail));
            !s.b.listed ==>
              && t.b.io.wrote == s.b.io.wrote && t.b.io.read == s.b.io.read
              && t.b.(io := s.b.io, past := s.b.past) == s.b
    ensures var s := Run(START, events); var t := Step(s, CTake(fail));
            !s.c.listed && s.c.created ==>
              && t.c.io.wrote == s.c.io.wrote && t.c.io.read == s.c.io.read
              && t.c.(io := s.c.io, past := s.c.past) == s.c
  {
    RunKeeps(events);
    var s := Run(START, events);
    if s.up != [] {
      CTakeAnnounced(s, fail);
    }
    hide Run, Inv;
    if !s.b.listed {
      StrayAtVisitor(s, fail);
    }
    if !s.c.listed && s.c.created {
      StrayAtProvider(s, fail);
    }
  }

  lemma StrayAtVisitor(s: Session, fail: Option<nat>)
    requires !s.b.listed
    ensures var t := Step(s, BTake(fail)); t.b.io.wrote == s.b.io.wrote && t.b.io.read == s.b.io.read
    ensures var t := Step(s, BTake(fail)); t.b.(io := s.b.io, past := s.b.past) == s.b
  {
  }

  lemma StrayAtProvider(s: Session, fail: Option<nat>)
    requires !s.c.listed && (s.up != [] ==> !s.up[0].New?)
    ensures var t := Step(s, CTake(fail)); t.c.io.wrote == s.c.io.wrote && t.c.io.read == s.c.io.read
    ensures var t := Step(s, CTake(fail)); t.c.(io := s.c.io, past := s.c.past) == s.c
  {
  }

  /** SESSION_OK is only noted, by a visitor that lists the session or not. */
  lemma AcceptedChangesNothing(events: seq<Event>, fail: Option<nat>)
    requires var s := Run(START, events); s.down != [] && s.down[0].Ok? && s.b.failing.Calm?
    ensures var s := Run(START, events); var t := Step(s, BTake(fail));
            t.b == s.b && t.down == s.down[1..] && t.up == s.up && t.c == s.c
  {
    hide Run;
    var s := Run(START, events);
    assert s.b.io.lost + [] == s.b.io.lost;
  }

  /** DATA at the visitor: written to a listed client that works, else counted as dropped. */
  lemma VisitorData(events: seq<Event>, p: seq<Byte>)
    requires var s := Run(START, events); s.down != [] && s.down[0] == Data(p) && s.b.failing.Calm?
    ensures var s := Run(START, events); var t := Step(s, BTake(None));
            && t.b.io.wrote == s.b.io.wrote + (if s.b.listed then p else [])
            && t.b.io.lost == s.b.io.lost + (if s.b.listed then [] else p)
            && t.b.(io := s.b.io) == s.b && t.b.io.read == s.b.io.read
  {
    hide Run;
    var s := Run(START, events);
    assert s.b.io.lost + [] == s.b.io.lost && s.b.io.wrote + [] == s.b.io.wrote;
  }

  /** DATA_EOF at the visitor: the client's send side is shut behind all that was written. */
  lemma VisitorEof(events: seq<Event>, fail: Option<nat>)
    requires var s := Run(START, events); s.down != [] && s.down[0].Eof? && s.b.listed && s.b.failing.Calm?
    ensures var s := Run(START, events); var t := Step(s, BTake(fail));
            && t.b.ends.hcr && t.b.ends.hcs == s.b.ends.hcs && t.b.sock.shut && t.b.sock.shutAt == |s.b.io.wrote|
            && t.b.sock.open == s.b.sock.open && t.b.io == s.b.io && t.b.pump == s.b.pump
            && (t.b.listed <==> !s.b.ends.hcs) && (t.b.ends.closed <==> s.b.ends.closed || s.b.ends.hcs)
  {
    hide Run;
  }

  /** DATA at the provider: written if connected, parked while connecting, else counted as dropped. */
  lemma ProviderData(events: seq<Event>, p: seq<Byte>)
    requires var s := Run(START, events);
             s.up != [] && s.up[0] == Data(p) && (s.c.dial.connected ==> Usable(s.c.sock))
    ensures var s := Run(START, events); var t := Step(s, CTake(None));
            var live := s.c.listed && !s.c.ends.closed;
            && t.c.io.wrote == s.c.io.wrote + (if live && s.c.dial.connected then p else [])
            && t.c.buffer == s.c.buffer + (if live && !s.c.dial.connected then [p] else [])
            && t.c.io.lost == s.c.io.lost + (if live then [] else p)
            && t.c.(io := s.c.io, buffer := s.c.buffer, race := s.c.race) == s.c && t.c.io.read == s.c.io.read
  {
    RunKeeps(events);
    var s := Run(START, events);
    CTakeAnnounced(s, None);
    assert s.c.dial.connecting != s.c.dial.connected && (s.c.listed ==> s.c.created);
    hide Run, Inv, UpConserved, DownConserved, Announced, Ordered, ProviderOk, VisitorOk;
    assert s.c.io.lost + [] == s.c.io.lost && s.c.io.wrote + [] == s.c.io.wrote && s.c.buffer + [] == s.c.buffer;
  }

  /** DATA_EOF at the provider: the remote's send side is shut now if connected, else after the drain. */
  lemma ProviderEof(events: seq<Event>, fail: Option<nat>)
    requires var s := Run(START, events); s.up != [] && s.up[0].Eof? && s.c.listed
    ensures var s := Run(START, events); var t := Step(s, CTake(fail));
            && t.c.ends.hcr && t.c.ends.hcs == s.c.ends.hcs
            && (if s.c.dial.connected then t.c.sock.shut && t.c.sock.shutAt == |s.c.io.wrote| else t.c.sock == s.c.sock)
            && (t.c.listed <==> !s.c.ends.hcs) && (t.c.ends.closed <==> s.c.ends.closed || s.c.ends.hcs)
            && t.c.io == s.c.io && t.c.buffer == s.c.buffer && t.c.pump == s.c.pump && t.c.dial == s.c.dial
  {
    hide Run;
  }

  /** A successful dial is announced with SESSION_OK, and then the buffer is drained. */
  lemma DialSucceeds(s: Session)
    requires s.c.pump.Dialing?
    ensures var t := Run(s, [OnC(DialOk)] + [OnC(CAppend)] + [OnC(CResume)]);
            && t.down == s.down + [Ok] && t.up == s.up && t.b == s.b
            && t.c.pump.Draining? && t.c.dial.connected && !t.c.dial.connecting && Usable(t.c.sock)
            && t.c.buffer == s.c.buffer && t.c.io == s.c.io && t.c.ends == s.c.ends && t.c.listed == s.c.listed
  {
    Three(s, OnC(DialOk), OnC(CAppend), OnC(CResume));
    assert s.down + [] == s.down && (s.down + [Ok]) + [] == s.down + [Ok];
  }

  /** When the buffer is drained an earlier DATA_EOF takes effect, and the remote is read unless all is over. */
  lemma DrainOver(s: Session)
    requires s.c.pump.Draining? && s.c.buffer == []
    ensures var t := Step(s, OnC(DrainEnd));
            && (if s.c.ends.hcr then t.c.sock.shut && t.c.sock.shutAt == |s.c.io.wrote| else t.c.sock == s.c.sock)
            && (if s.c.ends.closed then Finished(t.c) else t.c.pump.Reading? && t.c.listed == s.c.listed)
            && t.c.io == s.c.io && t.down == s.down && t.c.ends == s.c.ends
  {
    assert s.down + [] == s.down;
  }

  // ----- errors at the visitor -----

  /** A read error on the client is announced with SESSION_CLOSE, and then the session is closed and erased. */
  lemma ReadErrorEnds(s: Session)
    requires s.b.pump.Reading?
    ensures var t := Run(s, [OnB(BReadErr)] + [OnB(Append)] + [OnB(Resume)]);
            && t.up == s.up + [Close] && t.down == s.down && t.c == s.c
            && t.b.ends.closed && !t.b.listed && t.b.pump.Done? && t.b.io == s.b.io
  {
    Three(s, OnB(BReadErr), OnB(Append), OnB(Resume));
    assert s.up + [] == s.up && (s.up + [Close]) + [] == s.up + [Close];
  }

  lemma Three(s: Session, a: Event, b: Event, c: Event)
    ensures Run(s, [a] + [b] + [c]) == Step(Step(Step(s, a), b), c)
  {
    hide Step;
    var all := [a] + [b] + [c];
    assert [a][..0] == [];
    assert Run(s, [a]) == Step(s, a);
    assert ([a] + [b])[..1] == [a];
    assert Run(s, [a] + [b]) == Step(Step(s, a), b);
    assert all[..2] == [a] + [b] && |all| == 3 && all[2] == c;
  }

  /**
   A failed write to the client: what got out is counted, SESSION_CLOSE follows, and then the client is
   closed and the session erased.
   */
  lemma FailedWriteDrops(events: seq<Event>, p: seq<Byte>, k: nat)
    requires var s := Run(START, events); s.down != [] && s.down[0] == Data(p) && s.b.listed && s.b.failing.Calm?
    requires p != [] && k <= |p|
    ensures var s := Run(START, events); var t := Run(s, [BTake(Some(k))] + [OnB(FailAppend)] + [OnB(FailResume)]);
            && Dropped(t.b) && t.b.failing.Calm? && t.up == s.up + [Close] && t.down == s.down[1..]
            && t.b.io.wrote == s.b.io.wrote + p[..k] && t.b.io.lost == s.b.io.lost + p[k..]
  {
    var s := Run(START, events);
    Three(s, BTake(Some(k)), OnB(FailAppend), OnB(FailResume));
    assert (s.up + [Close]) + [] == s.up + [Close];
    hide Run;
  }

  /** A closed session's pump stops at its next resumption, and nothing more is read from the client. */
  lemma ClosedPumpStops(s: Session)
    requires s.b.ends.closed && s.b.pump.Sent?
    ensures var t := Step(s, OnB(Resume));
            && t.b.pump.Done? && !t.b.listed && t.b.ends.closed && t.b.io == s.b.io && t.up == s.up
  {
    assert s.up + [] == s.up;
  }

  // ----- errors at the provider -----

  /** A failed direct write: what got out is counted, the rest is dropped, and the remote is of no more use. */
  lemma FailedDirectWrite(s: Session, p: seq<Byte>, k: nat)
    requires s.up != [] && s.up[0] == Data(p) && p != [] && k <= |p|
    requires s.c.listed && !s.c.ends.closed && s.c.dial.connected && Usable(s.c.sock)
    ensures var t := Step(s, CTake(Some(k)));
            && t.c.io.wrote == s.c.io.wrote + p[..k] && t.c.io.lost == s.c.io.lost + p[k..]
            && !Usable(t.c.sock) && t.c.buffer == s.c.buffer && t.c.pump == s.c.pump && t.c.listed
  {
  }

  /** A failed drain write: what got out is counted, everything else that was buffered is dropped. */
  lemma FailedDrainWrite(s: Session, k: nat)
    requires s.c.pump.Draining? && s.c.buffer != [] && s.c.buffer[0] != [] && k <= |s.c.buffer[0]| && Usable(s.c.sock)
    ensures var t := Step(s, OnC(DrainFail(k))); var p := s.c.buffer[0];
            && t.c.io.wrote == s.c.io.wrote + p[..k]
            && t.c.io.lost == p[k..] + Flatten(s.c.buffer[1..]) + s.c.io.lost
            && t.c.buffer == [] && t.c.pump.Done? && t.c.listed == s.c.listed && !Usable(t.c.sock) && t.down == s.down
  {
    assert s.down + [] == s.down;
  }

  /** A refused dial is announced with SESSION_ERR, and then the session is closed and erased. */
  lemma DialFailureEnds(s: Session)
    requires s.c.pump.Dialing?
    ensures var t := Run(s, [OnC(DialFail)] + [OnC(CAppend)] + [OnC(CResume)]);
            t.down == s.down + [Err] && t.up == s.up && t.b == s.b && Finished(t.c) && t.c.io == s.c.io
  {
    Three(s, OnC(DialFail), OnC(CAppend), OnC(CResume));
    assert s.down + [] == s.down && (s.down + [Err]) + [] == s.down + [Err];
  }

  /** A read error on the remote is announced with SESSION_CLOSE, and then the session is closed and erased. */
  lemma RemoteErrorEnds(s: Session)
    requires s.c.pump.Reading?
    ensures var t := Run(s, [OnC(CReadErr)] + [OnC(CAppend)] + [OnC(CResume)]);
            t.down == s.down + [Close] && t.up == s.up && t.b == s.b && Finished(t.c) && t.c.io == s.c.io
  {
    Three(s, OnC(CReadErr), OnC(CAppend), OnC(CResume));
    assert s.down + [] == s.down && (s.down + [Close]) + [] == s.down + [Close];
  }

  /** The remote's end of file is announced with DATA_EOF, and the session is erased whatever the client does. */
  lemma RemoteEofErases(s: Session)
    requires s.c.pump.Reading?
    ensures var t := Run(s, [OnC(CReadEof)] + [OnC(CAppend)] + [OnC(CResume)]);
            && t.down == s.down + [Eof] && t.up == s.up && t.b == s.b && t.c.io == s.c.io
            && t.c.pump.Done? && !t.c.listed && t.c.ends.hcs && t.c.ends.hcr == s.c.ends.hcr
            && (t.c.ends.closed <==> s.c.ends.closed || s.c.ends.hcr)
  {
    Three(s, OnC(CReadEof), OnC(CAppend), OnC(CResume));
    assert s.down + [] == s.down && (s.down + [Eof]) + [] == s.down + [Eof];
  }

  /** A closed session's coroutine stops after its next DATA, and nothing more is read from the remote. */
  lemma ClosedCoroutineStops(s: Session, p: seq<Byte>)
    requires s.c.ends.closed && s.c.pump == Sent(Data(p))
    ensures var t := Step(s, OnC(CResume)); Finished(t.c) && t.c.io == s.c.io && t.down == s.down
  {
    assert s.down + [] == s.down;
  }

  // ----- a node that stops -----

  /** When a node's reader ends, every session in its table is out of it with its socket closed. */
  lemma HaltsClose(s: Session)
    requires s.b.listed ==> s.b.created
    requires s.c.listed ==> s.c.created
    ensures var t := Step(s, BHalts);
            !t.b.listed && (s.b.listed ==> !t.b.sock.open) && t.b.io == s.b.io && t.b.pump == s.b.pump && t.c == s.c
    ensures var t := Step(s, CHalts);
            && !t.c.listed && (s.c.listed && s.c.dial.connected ==> !t.c.sock.open)
            && t.c.io == s.c.io && t.c.pump == s.c.pump && t.b == s.b
  {
  }

  // ----- a refused dial, end to end -----

  /** While the provider dials it has sent nothing for the session, and the visitor's reader is at peace. */
  ghost predicate Silent(s: Session) {
    s.c.pump.Dialing? ==> s.down == [] && s.b.failing.Calm?
  }

  lemma {:induction false} DialingSilent(events: seq<Event>)
    ensures Silent(Run(START, events))
  {
    if events != [] {
      hide Step, Inv, Silent;
      var before, event := events[..|events| - 1], events[|events| - 1];
      DialingSilent(before);
      RunKeeps(before);
      SilentStep(Run(START, before), event);
    } else {
      assert START.c.pump.Idle?;
    }
  }

  lemma SilentStep(s: Session, event: Event)
    requires Inv(s) && Silent(s)
    ensures Silent(Step(s, event))
  {
    match event {
      case OnB(act) =>
        if !act.Accept? {
          Parts(s);
          BStepSends(s.b, act);
        }
      case OnC(act) => NeverDialsAgain(s.c, act);
      case CTake(fail) =>
        if s.up != [] {
          CTakeAnnounced(s, fail);
          CReceivePump(s.c, s.up[0], fail);
          hide CReceive;
        }
      case _ =>
    }
  }

  lemma NeverDialsAgain(c: CSess, act: CAct)
    ensures CStep(c, act).0.pump.Dialing? ==> CStep(c, act) == (c, [])
  {
    match act
    case CResume => if c.pump.Sent? { match c.pump.m case Data(_) => case _ => }
    case _ =>
  }

  /**
   A refused dial, end to end: in every run in which the provider dials for a session that the visitor lists,
   if the dial fails, SESSION_ERR reaches the visitor and is handled, then the client is closed and neither
   node has the session any more.
   */
  lemma RefusedDial(events: seq<Event>, fail: Option<nat>)
    requires var s := Run(START, events); s.c.pump.Dialing? && s.b.listed
    ensures var s := Run(START, events);
            var t := Step(Run(s, [OnC(DialFail)] + [OnC(CAppend)] + [OnC(CResume)]), BTake(fail));
            Dropped(t.b) && Finished(t.c) && t.down == [] && t.b.io == s.b.io && t.c.io == s.c.io
  {
    DialingSilent(events);
    var s := Run(START, events);
    DialFailureEnds(s);
    hide Run;
    assert [] + [Err] == [Err];
  }
}
