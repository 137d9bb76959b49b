/** What the relay promises for one session, over every run, and where the code falls short of it. */
module RelayTheorems {
  import opened Octet
  import opened Options
  import opened Sequences
  import opened RelaySession
  import opened RelayProofs
  import RelayWindow

  /**
   Conservation.  In every run in which no DATA overtook older buffered DATA, the bytes read from the
   client are, in order: written to the remote, in the arrival buffer, dropped by the provider, in flight.
   */
  lemma {:induction false} UpstreamConserved(events: seq<Event>)
    ensures var s := Run(START, events);
            !s.c.race.overtaken ==>
              s.b.io.read == s.c.io.wrote + (Flatten(s.c.buffer) + (s.c.io.lost + Pay(Up(s))))
  {
    RunKeeps(events);
  }

  lemma {:induction false} DownstreamConserved(events: seq<Event>)
    ensures var s := Run(START, events);
            s.c.io.read == s.b.io.wrote + (s.b.io.lost + Pay(Down(s)))
  {
    RunKeeps(events);
  }

  /**
   Prefix safety, in spite of failed writes, half-written payloads, broken links and stopped nodes.  Even when
   DATA overtakes DATA the remote is given no byte that the client did not send, and none twice.
   */
  lemma {:induction false} PrefixSafety(events: seq<Event>)
    ensures var s := Run(START, events);
            && s.b.io.wrote <= s.c.io.read
            && (!s.c.race.overtaken ==> s.c.io.wrote <= s.b.io.read)
            && multiset(s.c.io.wrote) <= multiset(s.b.io.read)
  {
    UpstreamConserved(events);
    DownstreamConserved(events);
    RelayWindow.BytesConserved(events);
    hide Run, Pay;
  }

  /** No error path was taken on either node, and the two races did not happen. */
  ghost predicate Undisturbed(s: Session) {
    !s.b.past.fault && !s.c.past.fault && !s.c.race.overtaken && !s.c.race.earlyEof
  }

  ghost predicate Removed(s: Session) {
    s.b.created && !s.b.listed && s.c.created && !s.c.listed
  }

  /**
   Complete delivery.  Once both nodes have removed an undisturbed session, each side has been given
   exactly what the other sent, and each send side was shut when all of it had been written.
   */
  lemma {:induction false} CompleteDelivery(events: seq<Event>)
    ensures var s := Run(START, events);
            Undisturbed(s) && Removed(s) ==>
              && s.c.io.wrote == s.b.io.read && s.b.io.wrote == s.c.io.read
              && s.c.sock.shut && s.c.sock.shutAt == |s.b.io.read|
              && s.b.sock.shut && s.b.sock.shutAt == |s.c.io.read|
  {
    RunKeeps(events);
    var s := Run(START, events);
    if Undisturbed(s) && Removed(s) {
      PayNone(Up(s));
      PayNone(Down(s));
      Nothing(s.c.io.wrote);
      Nothing(s.b.io.wrote);
    }
  }

  lemma Nothing(a: seq<Byte>)
    ensures a + ([] + ([] + [])) == a && a + ([] + []) == a
  {
  }

  /**
   Towards the client no race matters: a session that the visitor removed without an error has given
   its client everything that was read from the remote.
   */
  lemma ReturnDelivery(events: seq<Event>)
    ensures var s := Run(START, events);
            s.b.created && !s.b.listed && !s.b.past.fault ==> s.b.io.wrote == s.c.io.read
  {
    RunKeeps(events);
    var s := Run(START, events);
    if s.b.created && !s.b.listed && !s.b.past.fault {
      PayNone(Down(s));
      Nothing(s.b.io.wrote);
    }
  }

  /**
   Towards the remote: with the client's end of file handled, the buffer drained and nothing overtaken, what
   the remote lacks is exactly the tail that the provider dropped.
   */
  lemma {:induction false} ForwardDelivery(events: seq<Event>)
    ensures var s := Run(START, events);
            s.c.past.gotEof && s.c.buffer == [] && !s.c.race.overtaken ==>
              s.b.io.read == s.c.io.wrote + s.c.io.lost
  {
    RunKeeps(events);
    var s := Run(START, events);
    if s.c.past.gotEof && s.c.buffer == [] && !s.c.race.overtaken {
      PayNone(Up(s));
      hide Run;
      NothingAhead(s.c.io.wrote, s.c.io.lost);
    }
  }

  lemma NothingAhead(wrote: seq<Byte>, lost: seq<Byte>)
    ensures wrote + ([] + (lost + [])) == wrote + lost
  {
    assert [] + (lost + []) == lost;
  }

  /**
   Visitor cleanup.  In whatever order the client's end of file, DATA_EOF and the pump's suspended
   write come: without an error the session leaves the table only when both half-close flags are set,
   and once the pump has ended and DATA_EOF was handled it is closed and gone.
   */
  lemma VisitorCleanup(events: seq<Event>)
    ensures var b := Run(START, events).b;
            b.created && !b.past.fault ==>
              && (!b.listed ==> b.ends.hcr && b.ends.hcs && b.ends.closed)
              && (b.pump.Done? && b.ends.hcr ==> b.ends.closed && !b.listed)
  {
    RunKeeps(events);
  }

  /**
   Provider cleanup.  Without an error the session leaves the table only when the remote has ended, and has
   left it when its coroutine is over.  An ended coroutine whose session is still listed has met a failed
   drain write.
   */
  lemma {:induction false} ProviderCleanup(events: seq<Event>)
    ensures var c := Run(START, events).c;
            && (c.created && !c.past.fault ==> (!c.listed ==> c.ends.hcs) && (c.pump.Done? ==> !c.listed))
            && Lingers(c)
  {
    RunLingers(events);
    RunKeeps(events);
    hide Run;
  }

  ghost predicate Lingers(c: CSess) {
    c.created && c.pump.Done? && c.listed ==> c.sock.broken && c.past.fault
  }

  lemma {:induction false} RunLingers(events: seq<Event>)
    ensures Lingers(Run(START, events).c)
  {
    if events != [] {
      hide Step, Lingers, Inv;
      var before, event := events[..|events| - 1], events[|events| - 1];
      RunLingers(before);
      RunKeeps(before);
      StepLingers(Run(START, before), event);
    } else {
      assert !START.c.created;
    }
  }

  lemma StepLingers(s: Session, event: Event)
    requires Inv(s) && Lingers(s.c)
    ensures Lingers(Step(s, event).c)
  {
    Parts(s);
    match event {
      case OnC(act) => CStepLingers(s.c, act);
      case CTake(fail) =>
        if s.up != [] {
          CTakeAnnounced(s, fail);
          CReceiveLingers(s.c, s.up[0], fail);
        }
      case _ =>
    }
  }

  lemma CStepLingers(c: CSess, act: CAct)
    requires Lingers(c)
    ensures Lingers(CStep(c, act).0)
  {
    match act
    case CResume => if c.pump.Sent? { match c.pump.m case Data(_) => case _ => }
    case _ =>
  }

  lemma CReceiveLingers(c: CSess, m: Msg, fail: Option<nat>)
    requires Lingers(c)
    ensures Lingers(CReceive(c, m, fail))
  {
    if m.Data? {
      var t := c.(past := Noted(c.past, m));
      if t.listed && !t.ends.closed && t.dial.connected {
        if m.payload == [] || (Usable(t.sock) && fail.None?) {
        } else {
        }
      }
    }
  }

  /** A write of the drain loop fails. */
  predicate DrainThrows(c: CSess, event: Event) {
    event.OnC? && event.cAct.DrainFail? && c.pump.Draining? && c.buffer != [] && c.buffer[0] != []
  }

  /** Exactly which step, in any state, ends a coroutine and leaves its session listed: a failed drain write. */
  lemma LeftBehindExact(s: Session, event: Event)
    requires !s.c.pump.Done?
    ensures var t := Step(s, event);
            t.c.pump.Done? && t.c.listed <==> DrainThrows(s.c, event) && s.c.listed
  {
    match event {
      case OnC(act) =>
        if act.CResume? && s.c.pump.Sent? {
          match s.c.pump.m case Data(_) => case _ =>
        }
      case _ =>
    }
  }

  // ----- runs -----

  lemma RunSnoc(events: seq<Event>, event: Event)
    ensures Run(START, events + [event]) == Step(Run(START, events), event)
  {
    assert (events + [event])[..|events|] == events;
  }

  /** Up to the point where the provider has one payload buffered and its connect has completed. */
  const OPENING := [OnB(Accept), OnB(Append), OnB(Resume), OnB(BRead([1])), OnB(Append), OnB(Resume),
                    CTake(None), CTake(None), OnC(DialOk)]

  function Opened(): Session {
    Session(
      BSess(true, true, NO_ENDS, Reading, Calm, OPEN, Flow([1], [], []), NO_PAST),
      CSess(true, true, Dial(false, true), NO_ENDS, Sending(Ok), [[1]], OPEN, NO_FLOW, NO_PAST, Race(false, false)),
      [], [])
  }

  lemma OpeningRuns()
    ensures Run(START, OPENING) == Opened()
  {
    var e1 := [OnB(Accept)];
    RunSnoc([], OnB(Accept));
    assert [] + e1 == e1 && Run(START, []) == START;
    var e2 := e1 + [OnB(Append)];
    RunSnoc(e1, OnB(Append));
    var e3 := e2 + [OnB(Resume)];
    RunSnoc(e2, OnB(Resume));
    assert Run(START, e3) == Session(BSess(true, true, NO_ENDS, Reading, Calm, OPEN, NO_FLOW, NO_PAST), FRESH_C, [New], []);
    var e4 := e3 + [OnB(BRead([1]))];
    RunSnoc(e3, OnB(BRead([1])));
    var e5 := e4 + [OnB(Append)];
    RunSnoc(e4, OnB(Append));
    var e6 := e5 + [OnB(Resume)];
    RunSnoc(e5, OnB(Resume));
    assert Run(START, e6).up == [New, Data([1])];
    var e7 := e6 + [CTake(None)];
    RunSnoc(e6, CTake(None));
    var e8 := e7 + [CTake(None)];
    RunSnoc(e7, CTake(None));
    assert Run(START, e8).up == [];
    RunSnoc(e8, OnC(DialOk));
    assert e8 + [OnC(DialOk)] == OPENING;
  }

  /**
   Order fails: a second payload that is handled before the buffered one is drained reaches the remote
   first, although no write fails and no link breaks.
   */
  lemma WindowReorders()
    ensures var s := Run(START, OPENING + [OnB(BRead([2]))] + [OnB(Append)] + [CTake(None)]);
            && s.b.io.read == [1, 2] && s.c.io.wrote == [2] && !(s.c.io.wrote <= s.b.io.read)
            && s.c.race.overtaken && !s.b.past.fault && !s.c.past.fault
  {
    OpeningRuns();
    hide Run;
    var e1 := OPENING + [OnB(BRead([2]))];
    RunSnoc(OPENING, OnB(BRead([2])));
    assert [1] + [2] == [1, 2];
    var e2 := e1 + [OnB(Append)];
    RunSnoc(e1, OnB(Append));
    assert [] + [Data([2])] == [Data([2])];
    RunSnoc(e2, CTake(None));
    var sent: seq<Byte>, given: seq<Byte> := [1, 2], [2];
    assert sent[0] != given[0];
  }

  /**
   Completeness fails: a DATA_EOF handled in the same window shuts the remote before the buffered payload
   is written, so draining can only fail and the payload is lost.
   */
  lemma WindowEofLoses()
    ensures var s := Run(START, OPENING + [OnB(BReadEof)] + [OnB(Append)] + [CTake(None)] + [OnC(CAppend)] + [OnC(CResume)]);
            && s.c.pump.Draining? && s.c.buffer == [[1]] && s.c.sock.shut && !s.c.past.fault
            && Step(s, OnC(DrainOne)) == s
            && forall count :: Step(s, OnC(DrainFail(count))).c.io == Flow([], [], [1])
  {
    ShutInWindow();
    hide Run;
    var e3 := OPENING + [OnB(BReadEof)] + [OnB(Append)] + [CTake(None)];
    var e4 := e3 + [OnC(CAppend)];
    RunSnoc(e3, OnC(CAppend));
    RunSnoc(e4, OnC(CResume));
    var s := Run(START, e4 + [OnC(CResume)]);
    assert s.down + [] == s.down;
    forall count ensures Step(s, OnC(DrainFail(count))).c.io == Flow([], [], [1]) {
      assert s.c.buffer[1..] == [] && [1][0..] == [1] && [1][..0] == [];
      assert s.c.buffer[0][0..] + Flatten(s.c.buffer[1..]) + s.c.io.lost == [1];
    }
  }

  /** A failed drain write leaves the session in the table without a coroutine, and sends no SESSION_CLOSE. */
  lemma DrainFailureLingers()
    ensures var s := Run(START, OPENING + [OnC(CAppend)] + [OnC(CResume)] + [OnC(DrainFail(0))]);
            s.c.listed && s.c.pump.Done? && s.c.buffer == [] && s.c.io.lost == [1] && s.down == [Ok]
  {
    OpeningRuns();
    hide Run;
    var e1 := OPENING + [OnC(CAppend)];
    RunSnoc(OPENING, OnC(CAppend));
    var e2 := e1 + [OnC(CResume)];
    RunSnoc(e1, OnC(CResume));
    RunSnoc(e2, OnC(DrainFail(0)));
    assert [1][0..] + Flatten([[1]][1..]) + [] == [1];
  }

  lemma ShutInWindow()
    ensures var s := Run(START, OPENING + [OnB(BReadEof)] + [OnB(Append)] + [CTake(None)]);
            s.c == Opened().c.(ends := Ends(true, false, false), sock := Sock(true, false, true, 0), past := Past(true, false))
  {
    OpeningRuns();
    hide Run;
    var e1 := OPENING + [OnB(BReadEof)];
    RunSnoc(OPENING, OnB(BReadEof));
    var e2 := e1 + [OnB(Append)];
    RunSnoc(e1, OnB(Append));
    assert [] + [Eof] == [Eof];
    RunSnoc(e2, CTake(None));
  }

  /** The provider has drained, met the remote's end of file and erased the session. */
  function Ended(): seq<Event> {
    OPENING + [OnC(CAppend)] + [OnC(CResume)] + [OnC(DrainOne)] + [OnC(DrainEnd)]
      + [OnC(CReadEof)] + [OnC(CAppend)] + [OnC(CResume)]
  }

  lemma DrainedOnce()
    ensures var s := Run(START, OPENING + [OnC(CAppend)] + [OnC(CResume)] + [OnC(DrainOne)] + [OnC(DrainEnd)]);
            && s.b == Opened().b && s.up == [] && s.down == [Ok]
            && s.c == Opened().c.(pump := Reading, buffer := [], io := Flow([], [1], []))
  {
    OpeningRuns();
    hide Run;
    var e1 := OPENING + [OnC(CAppend)];
    RunSnoc(OPENING, OnC(CAppend));
    var e2 := e1 + [OnC(CResume)];
    RunSnoc(e1, OnC(CResume));
    var e3 := e2 + [OnC(DrainOne)];
    RunSnoc(e2, OnC(DrainOne));
    assert [] + [1] == [1] && [[1]][1..] == [];
    RunSnoc(e3, OnC(DrainEnd));
  }

  lemma ErasedEarly()
    ensures var s := Run(START, Ended());
            && s.b == Opened().b && s.up == []
            && s.c == CSess(true, false, Dial(false, true), Ends(false, true, false), Done, [], OPEN,
                            Flow([], [1], []), NO_PAST, Race(false, true))
  {
    DrainedOnce();
    hide Run;
    var e4 := OPENING + [OnC(CAppend)] + [OnC(CResume)] + [OnC(DrainOne)] + [OnC(DrainEnd)];
    var e5 := e4 + [OnC(CReadEof)];
    RunSnoc(e4, OnC(CReadEof));
    var e6 := e5 + [OnC(CAppend)];
    RunSnoc(e5, OnC(CAppend));
    RunSnoc(e6, OnC(CResume));
  }

  /**
   Completeness fails without any window: the provider erases a session when the remote ends, so what
   the client sends after that is dropped even though both sides end in good order.
   */
  lemma EarlyEofLoses()
    ensures var s := Run(START, Ended() + [OnB(BRead([2]))] + [OnB(Append)] + [CTake(None)]);
            && s.b.io.read == [1, 2] && s.c.io.wrote == [1] && s.c.io.lost == [2]
            && s.c.race.earlyEof && !s.c.race.overtaken && !s.b.past.fault && !s.c.past.fault
  {
    ErasedEarly();
    hide Run, Ended;
    var e8 := Ended() + [OnB(BRead([2]))];
    RunSnoc(Ended(), OnB(BRead([2])));
    assert [1] + [2] == [1, 2];
    var e9 := e8 + [OnB(Append)];
    RunSnoc(e8, OnB(Append));
    assert [] + [Data([2])] == [Data([2])];
    RunSnoc(e9, CTake(None));
    assert [] + [2] == [2];
  }

  /** From the drained session: an answer. */
  function Replied(): seq<Event> {
    OPENING + [OnC(CAppend)] + [OnC(CResume)] + [OnC(DrainOne)] + [OnC(DrainEnd)]
      + [BTake(None)] + [OnC(CRead([2]))] + [OnC(CAppend)] + [OnC(CResume)] + [BTake(None)]
  }

  lemma RepliedRuns()
    ensures var s := Run(START, Replied());
            && s.up == [] && s.down == []
            && s.b == Opened().b.(io := Flow([1], [2], []))
            && s.c == Opened().c.(pump := Reading, buffer := [], io := Flow([2], [1], []))
  {
    DrainedOnce();
    hide Run;
    var e0 := OPENING + [OnC(CAppend)] + [OnC(CResume)] + [OnC(DrainOne)] + [OnC(DrainEnd)];
    var e1 := e0 + [BTake(None)];
    RunSnoc(e0, BTake(None));
    var e2 := e1 + [OnC(CRead([2]))];
    RunSnoc(e1, OnC(CRead([2])));
    var e3 := e2 + [OnC(CAppend)];
    RunSnoc(e2, OnC(CAppend));
    assert [] + [Data([2])] == [Data([2])] && [] + [2] == [2];
    var e4 := e3 + [OnC(CResume)];
    RunSnoc(e3, OnC(CResume));
    RunSnoc(e4, BTake(None));
  }

  /** Then the client's end of file. */
  function Answered(): seq<Event> {
    Replied() + [OnB(BReadEof)] + [OnB(Append)] + [OnB(Resume)] + [CTake(None)]
  }

  lemma AnsweredRuns()
    ensures var s := Run(START, Answered());
            && s.up == [] && s.down == []
            && s.b == Opened().b.(pump := Done, ends := Ends(false, true, false), io := Flow([1], [2], []))
            && s.c == Opened().c.(pump := Reading, buffer := [], io := Flow([2], [1], []),
                                  ends := Ends(true, false, false), sock := Sock(true, false, true, 1), past := Past(true, false))
  {
    RepliedRuns();
    hide Run, Replied;
    var e6 := Replied() + [OnB(BReadEof)];
    RunSnoc(Replied(), OnB(BReadEof));
    var e7 := e6 + [OnB(Append)];
    RunSnoc(e6, OnB(Append));
    var e8 := e7 + [OnB(Resume)];
    RunSnoc(e7, OnB(Resume));
    RunSnoc(e8, CTake(None));
  }

  /** Then the remote's end of file. */
  function Completing(): seq<Event> {
    Answered() + [OnC(CReadEof)] + [OnC(CAppend)] + [OnC(CResume)] + [BTake(None)]
  }

  /** `CompleteDelivery` is not about nothing: a whole session, with an answer, that both nodes remove in peace. */
  lemma CompletesOnce()
    ensures var s := Run(START, Completing());
            && Undisturbed(s) && Removed(s)
            && s.b.io.read == [1] == s.c.io.wrote && s.c.io.read == [2] == s.b.io.wrote
  {
    AnsweredRuns();
    hide Run, Answered;
    var e1 := Answered() + [OnC(CReadEof)];
    RunSnoc(Answered(), OnC(CReadEof));
    var e2 := e1 + [OnC(CAppend)];
    RunSnoc(e1, OnC(CAppend));
    assert [] + [Eof] == [Eof];
    var e3 := e2 + [OnC(CResume)];
    RunSnoc(e2, OnC(CResume));
    RunSnoc(e3, BTake(None));
  }
}
