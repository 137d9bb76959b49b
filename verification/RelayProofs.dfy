/** What every run of one relayed session keeps. */
module RelayProofs {
  import opened Octet
  import opened Options
  import opened Sequences
  import opened RelaySession

  // ----- frames in order -----

  /** The payload bytes of some frames. */
  function Pay(ms: seq<Msg>): seq<Byte> {
    if ms == [] then [] else Payload(ms[0]) + Pay(ms[1..])
  }

  lemma {:induction false} PayConcat(a: seq<Msg>, b: seq<Msg>)
    ensures Pay(a + b) == Pay(a) + Pay(b)
  {
    if a == [] {
      assert a + b == b;
    } else {
      assert (a + b)[1..] == a[1..] + b;
      PayConcat(a[1..], b);
      Assoc(Payload(a[0]), Pay(a[1..]), Pay(b));
    }
  }

  lemma {:induction false} PayNone(ms: seq<Msg>)
    requires NoData(ms)
    ensures Pay(ms) == []
  {
    if ms != [] {
      PayNone(ms[1..]);
    }
  }

  ghost predicate NoData(ms: seq<Msg>) {
    forall i :: 0 <= i < |ms| ==> !ms[i].Data?
  }

  ghost predicate NoNew(ms: seq<Msg>) {
    forall i :: 0 <= i < |ms| ==> !ms[i].New?
  }

  ghost predicate NoEof(ms: seq<Msg>) {
    forall i :: 0 <= i < |ms| ==> !ms[i].Eof?
  }

  /** No payload behind an end of file. */
  ghost predicate EofLast(ms: seq<Msg>) {
    forall i, j :: 0 <= i < j < |ms| && ms[i].Eof? ==> !ms[j].Data?
  }

  function Pending(pump: Pump): seq<Msg> {
    if pump.Sending? then [pump.m] else []
  }

  /** All frames one end has decided on and the other has not handled. */
  function Up(s: Session): seq<Msg> {
    s.up + Pending(s.b.pump)
  }

  function Down(s: Session): seq<Msg> {
    s.down + Pending(s.c.pump)
  }

  /** The pump will send no payload any more. */
  ghost predicate Spent(pump: Pump) {
    pump.Done? || (pump.Sent? && pump.m.Eof?)
  }

  /** Payload, then at most one end of file, and an end of file once handled was the last. */
  ghost predicate Ordered(ms: seq<Msg>, pump: Pump, gotEof: bool) {
    && EofLast(ms + Pending(pump))
    && (gotEof ==> NoData(ms + Pending(pump)))
    && (gotEof || !NoEof(ms) ==> Spent(pump))
  }

  // ----- invariants -----

  /** Every byte read from the client is in exactly one place, in order. */
  ghost predicate UpConserved(s: Session) {
    s.b.io.read == s.c.io.wrote + (Flatten(s.c.buffer) + (s.c.io.lost + Pay(Up(s))))
  }

  ghost predicate DownConserved(s: Session) {
    s.c.io.read == s.b.io.wrote + (s.b.io.lost + Pay(Down(s)))
  }

  /** The session announces itself once and first. */
  ghost predicate Announced(s: Session) {
    && (!s.b.created ==> s.b == FRESH_B && s.up == [] && !s.c.created)
    && (s.b.created && !s.c.created ==>
          |Up(s)| > 0 && Up(s)[0].New? && NoNew(Up(s)[1..]))
    && (s.c.created ==> NoNew(Up(s)))
    && (!s.c.created ==> s.c == FRESH_C && s.down == [] && s.b.failing.Calm?)
    && (s.b.created ==> !s.b.pump.Idle?)
  }

  ghost predicate ProviderShape(c: CSess) {
    && (c.created ==> c.dial.connecting != c.dial.connected && !c.pump.Idle?)
    && (c.dial.connecting ==> c.pump.Dialing? || c.pump == Sending(Err) || c.pump == Sent(Err) || c.pump.Done?)
    && (c.pump.Dialing? ==> c.dial.connecting)
    && (c.sock.broken ==> c.dial.connected)
    && (c.listed ==> c.created)
    && (c.dial.connected && !c.pump.Draining? && c.pump != Sending(Ok) && c.pump != Sent(Ok) ==> c.buffer == [])
    && (c.pump.Sending? || c.pump.Sent? ==> !c.pump.m.New?)
    && (c.ends.hcr ==> c.past.gotEof)
    && (c.pump.Sending? && (c.pump.m.Data? || c.pump.m.Eof?) ==> c.dial.connected)
    && (c.pump.Reading? || c.pump.Draining? ==> c.dial.connected)
    && (c.sock.shut ==> c.past.gotEof && c.sock.shutAt == |c.io.wrote|)
  }

  ghost predicate VisitorShape(b: BSess) {
    && !b.pump.Dialing? && !b.pump.Draining?
    && (b.listed ==> b.created)
    && (b.ends.hcr ==> b.past.gotEof)
    && (b.sock.shut ==> b.past.gotEof && b.sock.shutAt == |b.io.wrote|)
    && (!b.failing.Calm? ==> b.past.fault)
    && (b.pump.Sending? ==> !b.pump.m.Ok? && !b.pump.m.Err?)
    && (b.pump.Sent? ==> !b.pump.m.Ok? && !b.pump.m.Err?)
  }

  /** Flags of a visitor session that met no error: the table entry goes exactly at the second end of file. */
  ghost predicate VisitorCalm(b: BSess) {
    b.created && !b.past.fault ==>
      && (b.ends.hcs <==> b.pump == Sending(Eof) || b.pump == Sent(Eof) || b.pump.Done?)
      && (b.ends.closed ==> b.ends.hcr && b.ends.hcs)
      && (b.listed <==> !b.ends.closed)
      && (b.pump.Done? && b.ends.hcr ==> b.ends.closed)
      && (b.ends.hcr ==> b.sock.shut)
      && (b.past.gotEof ==> b.ends.hcr)
      && (b.pump.Sending? || b.pump.Sent? ==> !b.pump.m.Close?)
      && b.io.lost == []
  }

  ghost predicate ProviderCalm(c: CSess) {
    c.created && !c.past.fault ==>
      && (c.ends.hcs <==> c.pump == Sending(Eof) || c.pump == Sent(Eof) || c.pump.Done?)
      && (c.ends.closed ==> c.ends.hcr && c.ends.hcs)
      && (!c.listed ==> c.ends.hcs)
      && (c.ends.hcs && !c.race.earlyEof ==> c.ends.hcr)
      && !c.sock.broken
      && (c.dial.connected ==> c.sock.open)
      && (c.ends.hcr && c.dial.connected && !c.pump.Draining? && c.pump != Sending(Ok) && c.pump != Sent(Ok) ==> c.sock.shut)
      && (c.pump.Sending? || c.pump.Sent? ==> !c.pump.m.Close? && !c.pump.m.Err?)
      && (!c.race.earlyEof ==> c.io.lost == [])
      && (c.ends.hcs ==> c.dial.connected)
  }

  /** Once bytes have been dropped, nothing more is accepted. */
  ghost predicate VisitorOk(b: BSess) {
    && VisitorShape(b) && VisitorCalm(b)
    && (b.io.lost != [] ==> b.created && (!b.listed || !b.failing.Calm?))
  }

  ghost predicate ProviderOk(c: CSess) {
    && ProviderShape(c) && ProviderCalm(c)
    && (c.io.lost != [] ==> c.created && (!c.listed || c.ends.closed || c.sock.broken))
  }

  ghost predicate Inv(s: Session) {
    && (s.c.race.overtaken || UpConserved(s))
    && DownConserved(s)
    && Announced(s)
    && Ordered(s.up, s.b.pump, s.c.past.gotEof)
    && Ordered(s.down, s.c.pump, s.b.past.gotEof)
    && ProviderOk(s.c) && VisitorOk(s.b)
  }

  // ----- adding and taking frames -----

  lemma PayAppend(ms: seq<Msg>, m: Msg)
    ensures Pay(ms + [m]) == Pay(ms) + Payload(m)
  {
    PayConcat(ms, [m]);
    assert Pay([m]) == Payload(m) + Pay([]);
  }

  lemma FlagsAppend(ms: seq<Msg>, m: Msg)
    ensures NoNew(ms) && !m.New? ==> NoNew(ms + [m])
    ensures NoData(ms) && !m.Data? ==> NoData(ms + [m])
    ensures NoEof(ms + [m]) <==> NoEof(ms) && !m.Eof?
  {
    var all := ms + [m];
    assert all[|ms|] == m;
    assert forall i :: 0 <= i < |ms| ==> all[i] == ms[i];
  }

  lemma EofLastAppend(ms: seq<Msg>, m: Msg)
    requires EofLast(ms) && (m.Data? ==> NoEof(ms))
    ensures EofLast(ms + [m])
  {
  }

  lemma HeadAppend(ms: seq<Msg>, m: Msg)
    requires |ms| > 0
    ensures (ms + [m])[0] == ms[0] && (ms + [m])[1..] == ms[1..] + [m]
  {
  }

  /** The reader's `SESSION_CLOSE` goes in front of a frame the pump is still waiting to send. */
  lemma PayInsert(ms: seq<Msg>, tail: seq<Msg>)
    ensures Pay(ms + [Close] + tail) == Pay(ms + tail)
  {
    PayAppend(ms, Close);
    PayConcat(ms + [Close], tail);
    PayConcat(ms, tail);
  }

  lemma FlagsInsert(ms: seq<Msg>, tail: seq<Msg>)
    requires |tail| <= 1
    ensures NoNew(ms + tail) ==> NoNew(ms + [Close] + tail)
    ensures NoData(ms + tail) ==> NoData(ms + [Close] + tail)
    ensures EofLast(ms + tail) ==> EofLast(ms + [Close] + tail)
  {
    var was, now := ms + tail, ms + [Close] + tail;
    assert forall i :: 0 <= i < |ms| ==> now[i] == was[i];
    assert now[|ms|] == Close;
    if tail != [] {
      assert now[|ms| + 1] == was[|ms|] == tail[0];
    }
  }

  lemma PayTake(ms: seq<Msg>, tail: seq<Msg>)
    requires |ms| > 0
    ensures Pay(ms + tail) == Payload(ms[0]) + Pay(ms[1..] + tail)
  {
    assert (ms + tail)[1..] == ms[1..] + tail;
  }

  lemma FlagsTake(ms: seq<Msg>, tail: seq<Msg>)
    requires |ms| > 0
    ensures (ms + tail)[0] == ms[0] && (ms + tail)[1..] == ms[1..] + tail
    ensures NoNew(ms + tail) ==> NoNew(ms[1..] + tail)
    ensures NoData(ms + tail) ==> NoData(ms[1..] + tail) && !ms[0].Data?
    ensures EofLast(ms + tail) ==> EofLast(ms[1..] + tail)
    ensures EofLast(ms + tail) && ms[0].Eof? ==> NoData(ms[1..] + tail)
    ensures NoEof(ms) <==> !ms[0].Eof? && NoEof(ms[1..])
  {
    var all := ms + tail;
    assert all[1..] == ms[1..] + tail;
    assert forall i :: 0 < i < |ms| ==> ms[i] == ms[1..][i - 1];
  }

  // ----- one step: the order of frames -----

  /** A coroutine step adds at most the frame it was waiting to send, and may decide on another. */
  ghost predicate Moved(ms: seq<Msg>, pump: Pump, ms': seq<Msg>, pump': Pump) {
    || (ms' == ms && Pending(pump') == Pending(pump) && (Spent(pump) ==> Spent(pump')))
    || (ms' == ms && !pump.Sending? && !Spent(pump) && pump'.Sending?)
    || (pump.Sending? && ms' == ms + [pump.m] && pump' == Sent(pump.m))
  }

  lemma MovedOrdered(ms: seq<Msg>, pump: Pump, ms': seq<Msg>, pump': Pump, gotEof: bool)
    requires Ordered(ms, pump, gotEof) && Moved(ms, pump, ms', pump')
    ensures Ordered(ms', pump', gotEof)
  {
    hide EofLast, NoData, NoEof;
    if pump.Sending? && ms' == ms + [pump.m] && pump' == Sent(pump.m) {
      assert ms' + [] == ms';
      FlagsAppend(ms, pump.m);
    } else if ms' == ms && !pump.Sending? && !Spent(pump) && pump'.Sending? {
      assert ms + [] == ms;
      FlagsAppend(ms, pump'.m);
      EofLastAppend(ms, pump'.m);
    }
  }

  lemma InsertedOrdered(ms: seq<Msg>, pump: Pump, gotEof: bool)
    requires Ordered(ms, pump, gotEof)
    ensures Ordered(ms + [Close], pump, gotEof)
  {
    hide EofLast, NoData, NoEof;
    FlagsInsert(ms, Pending(pump));
    FlagsAppend(ms, Close);
  }

  lemma TakenOrdered(ms: seq<Msg>, pump: Pump, gotEof: bool)
    requires Ordered(ms, pump, gotEof) && |ms| > 0
    ensures Ordered(ms[1..], pump, gotEof || ms[0].Eof?)
    ensures ms[0].Data? ==> !gotEof
  {
    hide EofLast, NoData, NoEof;
    FlagsTake(ms, Pending(pump));
  }

  lemma BStepMoves(s: Session, act: BAct)
    requires Announced(s) && VisitorShape(s.b)
    ensures var t := Step(s, OnB(act));
            if act.FailAppend? && s.b.failing.Telling? then t.up == s.up + [Close] && t.b.pump == s.b.pump
            else Moved(s.up, s.b.pump, t.up, t.b.pump)
  {
    assert s.up + [] == s.up;
  }

  lemma CStepMoves(s: Session, act: CAct)
    requires ProviderShape(s.c)
    ensures var t := Step(s, OnC(act)); Moved(s.down, s.c.pump, t.down, t.c.pump)
  {
    assert s.down + [] == s.down;
  }

  // ----- one step: conservation -----

  /** The pump has just decided to send a frame. */
  ghost predicate Decides(pump: Pump, pump': Pump) {
    !pump.Sending? && pump'.Sending?
  }

  lemma MovedPay(ms: seq<Msg>, pump: Pump, ms': seq<Msg>, pump': Pump)
    requires Moved(ms, pump, ms', pump')
    ensures Pay(ms' + Pending(pump')) == Pay(ms + Pending(pump)) + (if Decides(pump, pump') then Payload(pump'.m) else [])
  {
    if Decides(pump, pump') {
      assert ms + [] == ms;
      PayAppend(ms, pump'.m);
    } else if pump.Sending? && pump' == Sent(pump.m) {
      assert ms' + [] == ms';
    }
  }

  lemma BStepFrame(b: BSess, act: BAct)
    requires act.Accept? ==> b.created || b == FRESH_B
    ensures var b' := BStep(b, act).0; b'.io.wrote == b.io.wrote && b'.io.lost == b.io.lost && b'.past.gotEof == b.past.gotEof
    ensures BStep(b, act).0.io.read == if act.BRead? && b.pump.Reading? then b.io.read + act.bytes else b.io.read
  {
    match act
    case BRead(bytes) =>
      assert b.io.read + [] == b.io.read;
    case _ =>
  }

  lemma BStepDecides(b: BSess, act: BAct)
    requires VisitorShape(b)
    ensures var b' := BStep(b, act).0;
            Decides(b.pump, b'.pump) ==>
              if act.BRead? && b.pump.Reading? then b'.pump.m == Data(act.bytes) else !b'.pump.m.Data?
    ensures var b' := BStep(b, act).0;
            act.BRead? && b.pump.Reading? && act.bytes != [] ==> Decides(b.pump, b'.pump)
  {
  }

  lemma BStepReads(s: Session, act: BAct)
    requires Announced(s) && VisitorShape(s.b)
    ensures var t := Step(s, OnB(act));
            && t.c == s.c && t.down == s.down && t.b.io.wrote == s.b.io.wrote && t.b.io.lost == s.b.io.lost && t.b.past.gotEof == s.b.past.gotEof
            && t.b.io.read == s.b.io.read + (if Decides(s.b.pump, t.b.pump) then Payload(t.b.pump.m) else [])
  {
    hide BStep;
    BStepFrame(s.b, act);
    BStepDecides(s.b, act);
    assert s.b.io.read + [] == s.b.io.read;
  }

  lemma BStepConserves(s: Session, act: BAct)
    requires Announced(s) && VisitorShape(s.b)
    ensures UpConserved(s) ==> UpConserved(Step(s, OnB(act)))
    ensures DownConserved(s) ==> DownConserved(Step(s, OnB(act)))
  {
    hide Step, Announced, VisitorShape, Pay, Moved;
    var t := Step(s, OnB(act));
    BStepReads(s, act);
    BStepMoves(s, act);
    if act.FailAppend? && s.b.failing.Telling? {
      PayInsert(s.up, Pending(s.b.pump));
    } else {
      MovedPay(s.up, s.b.pump, t.up, t.b.pump);
      var d := if Decides(s.b.pump, t.b.pump) then Payload(t.b.pump.m) else [];
      Regroup(s.c.io.wrote, Flatten(s.c.buffer), s.c.io.lost, Pay(Up(s)), d);
    }
  }

  lemma Regroup(a: seq<Byte>, b: seq<Byte>, c: seq<Byte>, d: seq<Byte>, e: seq<Byte>)
    ensures (a + (b + (c + d))) + e == a + (b + (c + (d + e)))
  {
  }

  lemma CStepFrame(c: CSess, act: CAct)
    ensures var c' := CStep(c, act).0; c'.past.gotEof == c.past.gotEof && c'.race.overtaken == c.race.overtaken
    ensures CStep(c, act).0.io.read == if act.CRead? && c.pump.Reading? then c.io.read + act.bytes else c.io.read
  {
    match act
    case CRead(bytes) =>
      assert c.io.read + [] == c.io.read;
    case _ =>
  }

  lemma CStepDecides(c: CSess, act: CAct)
    ensures var c' := CStep(c, act).0;
            Decides(c.pump, c'.pump) ==>
              if act.CRead? && c.pump.Reading? then c'.pump.m == Data(act.bytes) else !c'.pump.m.Data?
    ensures var c' := CStep(c, act).0;
            act.CRead? && c.pump.Reading? && act.bytes != [] ==> Decides(c.pump, c'.pump)
  {
  }

  lemma CStepReads(s: Session, act: CAct)
    ensures var t := Step(s, OnC(act));
            && t.b == s.b && t.up == s.up && t.c.past.gotEof == s.c.past.gotEof && t.c.race.overtaken == s.c.race.overtaken
            && t.c.io.read == s.c.io.read + (if Decides(s.c.pump, t.c.pump) then Payload(t.c.pump.m) else [])
  {
    hide CStep;
    CStepFrame(s.c, act);
    CStepDecides(s.c, act);
    assert s.c.io.read + [] == s.c.io.read;
  }

  lemma CStepSame(c: CSess, act: CAct)
    requires !act.DrainOne? && !act.DrainFail?
    ensures var c' := CStep(c, act).0; c'.io.wrote == c.io.wrote && c'.buffer == c.buffer && c'.io.lost == c.io.lost
  {
  }

  /** Draining, and failing to drain, moves bytes from the buffer without reordering any. */
  lemma CStepHolds(c: CSess, act: CAct)
    ensures var c' := CStep(c, act).0;
            c'.io.wrote + (Flatten(c'.buffer) + c'.io.lost) == c.io.wrote + (Flatten(c.buffer) + c.io.lost)
  {
    var c' := CStep(c, act).0;
    match act
    case DrainOne =>
      if c' != c {
        Assoc(c.buffer[0], Flatten(c'.buffer), c.io.lost);
        Assoc(c.io.wrote, c.buffer[0], Flatten(c'.buffer) + c.io.lost);
      }
    case DrainFail(count) =>
      if c.pump.Draining? && c.buffer != [] {
        var k := if Usable(c.sock) then Min(count, |c.buffer[0]|) else 0;
        DrainSplit(c.io.wrote, c.buffer[0], k, Flatten(c.buffer[1..]), c.io.lost);
      }
    case _ =>
      hide CStep;
      CStepSame(c, act);
  }

  lemma DrainSplit(wrote: seq<Byte>, p: seq<Byte>, k: nat, rest: seq<Byte>, lost: seq<Byte>)
    requires k <= |p|
    ensures (wrote + p[..k]) + ([] + (p[k..] + rest + lost)) == wrote + ((p + rest) + lost)
  {
    assert p[..k] + p[k..] == p;
  }

  lemma Gather(a: seq<Byte>, b: seq<Byte>, c: seq<Byte>, d: seq<Byte>)
    ensures a + (b + (c + d)) == (a + (b + c)) + d
  {
  }

  lemma CStepConserves(s: Session, act: CAct)
    requires ProviderShape(s.c)
    ensures UpConserved(s) ==> UpConserved(Step(s, OnC(act)))
    ensures DownConserved(s) ==> DownConserved(Step(s, OnC(act)))
  {
    hide CStep, ProviderShape, Pay, Moved, Flatten;
    var t := Step(s, OnC(act));
    CStepReads(s, act);
    CStepMoves(s, act);
    CStepHolds(s.c, act);
    MovedPay(s.down, s.c.pump, t.down, t.c.pump);
    var d := if Decides(s.c.pump, t.c.pump) then Payload(t.c.pump.m) else [];
    Regroup([], s.b.io.wrote, s.b.io.lost, Pay(Down(s)), d);
    Gather(s.c.io.wrote, Flatten(s.c.buffer), s.c.io.lost, Pay(Up(s)));
    Gather(t.c.io.wrote, Flatten(t.c.buffer), t.c.io.lost, Pay(Up(s)));
  }

  /** What the provider has, or has dropped, of the client's bytes, in order. */
  function Held(c: CSess): seq<Byte> {
    c.io.wrote + (Flatten(c.buffer) + c.io.lost)
  }

  ghost predicate Shutters(c: CSess) {
    c.io.lost != [] ==> !c.listed || c.ends.closed || c.sock.broken
  }

  lemma BufferHolds(wrote: seq<Byte>, buffer: seq<seq<Byte>>, p: seq<Byte>)
    ensures wrote + (Flatten(buffer + [p]) + []) == (wrote + (Flatten(buffer) + [])) + p
  {
    FlattenConcat(buffer, [p]);
    FlattenOne(p);
    Assoc(wrote, Flatten(buffer), p);
  }

  lemma LoseHolds(wrote: seq<Byte>, buffered: seq<Byte>, lost: seq<Byte>, p: seq<Byte>)
    ensures wrote + (buffered + (lost + p)) == (wrote + (buffered + lost)) + p
  {
  }

  lemma WriteHolds(wrote: seq<Byte>, p: seq<Byte>, k: nat)
    requires k <= |p|
    ensures (wrote + p[..k]) + ([] + ([] + p[k..])) == (wrote + ([] + [])) + p
  {
    assert p[..k] + p[k..] == p;
  }

  lemma CDirectHolds(c: CSess, p: seq<Byte>, fail: Option<nat>)
    requires c.io.lost != [] ==> c.sock.broken
    requires !CDirect(c, p, fail).race.overtaken
    ensures Held(CDirect(c, p, fail)) == Held(c) + p
  {
    if p == [] {
      assert Held(c) + p == Held(c);
    } else if Usable(c.sock) && fail.None? {
      assert c.io.lost == [];
      WriteHolds(c.io.wrote, p, |p|);
      assert p[..|p|] == p && p[|p|..] == [];
    } else {
      var k := if Usable(c.sock) then Min(fail.value, |p|) else 0;
      if k == 0 {
        assert p[..k] == [] && p[k..] == p && c.io.wrote + [] == c.io.wrote;
        LoseHolds(c.io.wrote, Flatten(c.buffer), c.io.lost, p);
      } else {
        assert c.io.lost == [] && c.buffer == [];
        WriteHolds(c.io.wrote, p, k);
      }
    }
  }

  lemma CDataHolds(c: CSess, p: seq<Byte>, fail: Option<nat>)
    requires Shutters(c) && ProviderShape(c)
    requires !CData(c, p, fail).race.overtaken
    ensures Held(CData(c, p, fail)) == Held(c) + p
  {
    hide CDirect;
    if !c.listed || c.ends.closed {
      LoseHolds(c.io.wrote, Flatten(c.buffer), c.io.lost, p);
    } else if c.dial.connected {
      CDirectHolds(c, p, fail);
    } else if c.dial.connecting {
      assert c.io.lost == [];
      BufferHolds(c.io.wrote, c.buffer, p);
    } else {
      LoseHolds(c.io.wrote, Flatten(c.buffer), c.io.lost, p);
    }
  }

  lemma OvertakenStays(c: CSess, p: seq<Byte>, fail: Option<nat>)
    ensures c.race.overtaken ==> CData(c, p, fail).race.overtaken
    ensures CData(c, p, fail).race.earlyEof == c.race.earlyEof
  {
  }

  lemma CReceiveHolds(c: CSess, m: Msg, fail: Option<nat>)
    requires Shutters(c) && ProviderShape(c) && (m.New? ==> c == FRESH_C)
    requires !CReceive(c, m, fail).race.overtaken
    ensures Held(CReceive(c, m, fail)) == Held(c) + Payload(m)
    ensures !c.race.overtaken
  {
    hide CData;
    assert Held(c) + [] == Held(c);
    match m
    case Data(p) =>
      var t := c.(past := Noted(c.past, m));
      OvertakenStays(t, p, fail);
      CDataHolds(t, p, fail);
    case _ =>
  }

  lemma CTakeConserves(s: Session, fail: Option<nat>)
    requires |s.up| > 0 && Shutters(s.c) && ProviderShape(s.c) && (s.up[0].New? ==> s.c == FRESH_C && s.down == [])
    ensures var t := Step(s, CTake(fail));
            && (s.c.race.overtaken || UpConserved(s) ==> t.c.race.overtaken || UpConserved(t))
            && (DownConserved(s) ==> DownConserved(t))
  {
    hide CReceive, Pay, ProviderShape;
    var t := Step(s, CTake(fail));
    PayTake(s.up, Pending(s.b.pump));
    CReceivePump(s.c, s.up[0], fail);
    if !t.c.race.overtaken {
      CReceiveHolds(s.c, s.up[0], fail);
      Gather(s.c.io.wrote, Flatten(s.c.buffer), s.c.io.lost, Pay(Up(s)));
      Gather(t.c.io.wrote, Flatten(t.c.buffer), t.c.io.lost, Pay(Up(t)));
      Assoc(Held(s.c), Payload(s.up[0]), Pay(Up(t)));
    }
  }

  /** The provider's reader leaves the coroutine and the remote's bytes alone. */
  lemma CReceivePump(c: CSess, m: Msg, fail: Option<nat>)
    requires m.New? ==> c == FRESH_C
    ensures var c' := CReceive(c, m, fail);
            && c'.io.read == c.io.read
            && (!m.New? ==> c'.pump == c.pump && c'.past.gotEof == (c.past.gotEof || m.Eof?) && c'.created == c.created)
            && (m.New? ==> c'.pump == Dialing && !c'.past.gotEof && c'.created)
            && Pending(c'.pump) == Pending(c.pump)
  {
    match m
    case Data(p) =>
      var t := c.(past := Noted(c.past, m));
      if !t.listed || t.ends.closed {
      } else if t.dial.connected {
        if Usable(t.sock) && fail.None? {
        } else {
        }
      } else if t.dial.connecting {
      } else {
      }
    case _ =>
  }

  lemma BWriteHolds(b: BSess, p: seq<Byte>, fail: Option<nat>)
    requires b.io.lost == []
    ensures var b' := BWrite(b, p, fail); b'.io.wrote + b'.io.lost == (b.io.wrote + b.io.lost) + p
  {
    assert b.io.wrote + [] == b.io.wrote;
    if p == [] {
      assert b.io.wrote + p == b.io.wrote;
    } else if fail.Some? {
      var k := Min(fail.value, |p|);
      assert p[..k] + p[k..] == p;
      Assoc(b.io.wrote, p[..k], p[k..]);
      assert [] + p[k..] == p[k..];
    } else {
      assert (b.io.wrote + p) + [] == b.io.wrote + p;
    }
  }

  lemma BReceiveHolds(b: BSess, m: Msg, fail: Option<nat>)
    requires b.io.lost != [] ==> !b.listed
    ensures var b' := BReceive(b, m, fail);
            && b'.io.wrote + b'.io.lost == (b.io.wrote + b.io.lost) + Payload(m)
            && b'.io.read == b.io.read && b'.pump == b.pump && b'.past.gotEof == (b.past.gotEof || m.Eof?)
            && b'.created == b.created
  {
    assert (b.io.wrote + b.io.lost) + [] == b.io.wrote + b.io.lost;
    if !b.listed {
      Assoc(b.io.wrote, b.io.lost, Payload(m));
    } else {
      match m
      case Data(p) =>
        BWriteHolds(b.(past := Noted(b.past, m)), p, fail);
      case _ =>
    }
  }

  lemma BTakeConserves(s: Session, fail: Option<nat>)
    requires |s.down| > 0 && s.b.failing.Calm? && (s.b.io.lost != [] ==> !s.b.listed)
    ensures var t := Step(s, BTake(fail));
            && (UpConserved(s) ==> UpConserved(t))
            && (DownConserved(s) ==> DownConserved(t))
  {
    hide BReceive, Pay;
    var t := Step(s, BTake(fail));
    PayTake(s.down, Pending(s.c.pump));
    BReceiveHolds(s.b, s.down[0], fail);
    var p := Payload(s.down[0]);
    Assoc(s.b.io.wrote, s.b.io.lost, Pay(Down(s)));
    Assoc(s.b.io.wrote + s.b.io.lost, p, Pay(Down(t)));
    Assoc(t.b.io.wrote, t.b.io.lost, Pay(Down(t)));
  }

  // ----- one step: flags -----

  lemma BStepFlags(b: BSess, act: BAct)
    requires VisitorOk(b) && (b.created || b == FRESH_B) && (b.created ==> !b.pump.Idle?)
    ensures VisitorOk(BStep(b, act).0)
  {
    match act
    case Resume =>
      if b.pump.Sent? {
        BResumedFlags(b, b.pump.m);
      }
    case _ =>
  }

  lemma BResumedFlags(b: BSess, m: Msg)
    requires VisitorOk(b) && b.pump == Sent(m)
    ensures VisitorOk(BResumed(b, m))
  {
    match m
    case Eof =>
    case Close =>
    case _ =>
      if b.ends.closed {
      } else {
      }
  }

  lemma BReceiveFlags(b: BSess, m: Msg, fail: Option<nat>)
    requires VisitorOk(b) && b.created && b.failing.Calm? && (m.Data? ==> !b.past.gotEof)
    ensures VisitorOk(BReceive(b, m, fail))
  {
    if !b.listed {
    } else {
      match m
      case Data(p) =>
        if p == [] {
        } else if fail.None? {
        } else {
        }
      case Eof =>
        if b.ends.hcs {
        } else {
        }
      case _ =>
    }
  }

  lemma BHaltFlags(b: BSess)
    requires VisitorOk(b)
    ensures VisitorOk(BHalt(b))
  {
  }

  lemma CStepFlags(c: CSess, act: CAct)
    requires ProviderOk(c) && (c.created || c == FRESH_C)
    ensures ProviderOk(CStep(c, act).0)
  {
    match act
    case CResume =>
      if c.pump.Sent? {
        CResumedFlags(c, c.pump.m);
      }
    case DrainOne =>
      if c.pump.Draining? && c.buffer != [] && Usable(c.sock) {
      }
    case DrainFail(count) =>
      if c.pump.Draining? && c.buffer != [] {
      }
    case DrainEnd =>
      if c.pump.Draining? && c.buffer == [] {
        CDrainedFlags(c);
      }
    case _ =>
  }

  lemma CResumedFlags(c: CSess, m: Msg)
    requires ProviderOk(c) && c.created && c.pump == Sent(m)
    ensures ProviderOk(CResumed(c, m))
  {
    match m
    case Ok =>
    case Eof =>
    case Data(_) =>
      if c.ends.closed {
      } else {
      }
    case _ =>
  }

  lemma CDrainedFlags(c: CSess)
    requires ProviderOk(c) && c.created && c.pump.Draining? && c.buffer == []
    ensures ProviderOk(CDrained(c))
  {
    if c.ends.hcr {
    } else {
    }
  }

  lemma CReceiveFlags(c: CSess, m: Msg, fail: Option<nat>)
    requires ProviderOk(c) && (m.New? ==> c == FRESH_C) && (!m.New? ==> c.created)
    requires m.Data? ==> !c.past.gotEof
    ensures ProviderOk(CReceive(c, m, fail))
  {
    var t := c.(past := Noted(c.past, m));
    match m
    case Data(p) =>
      if !t.listed || t.ends.closed {
      } else if t.dial.connected {
        if Usable(t.sock) && fail.None? {
        } else {
        }
      } else {
      }
    case Eof =>
      if !t.listed {
      } else if t.ends.hcs {
      } else {
      }
    case _ =>
  }

  lemma CHaltFlags(c: CSess)
    requires ProviderOk(c)
    ensures ProviderOk(CHalt(c))
  {
  }

  // ----- one step: the announcement -----

  lemma BStepAnnounced(s: Session, act: BAct)
    requires Announced(s) && VisitorShape(s.b)
    ensures Announced(Step(s, OnB(act)))
  {
    hide BStep, NoNew;
    var t := Step(s, OnB(act));
    BStepMoves(s, act);
    BStepSends(s.b, act);
    if act.Accept? {
      BAccept(s.b);
      NoNewEmpty();
      assert [] + [New] == [New] && [New][1..] == [] && s.up + [] == s.up;
    } else if act.FailAppend? && s.b.failing.Telling? {
      FlagsInsert(s.up, Pending(s.b.pump));
    } else if Decides(s.b.pump, t.b.pump) {
      assert s.up + [] == s.up;
      FlagsAppend(s.up, t.b.pump.m);
      if s.up != [] {
        HeadAppend(s.up, t.b.pump.m);
        FlagsAppend(s.up[1..], t.b.pump.m);
      }
    } else {
      assert t.up + Pending(t.b.pump) == Up(s);
    }
  }

  lemma NoNewEmpty()
    ensures NoNew([])
  {
  }

  lemma BAccept(b: BSess)
    requires VisitorShape(b)
    ensures BStep(b, Accept) == if b.created then (b, []) else (FRESH_B.(created := true, listed := true, sock := OPEN, pump := Sending(New)), [])
  {
  }

  lemma BStepSends(b: BSess, act: BAct)
    requires VisitorShape(b)
    ensures var b' := BStep(b, act).0;
            && (b.created ==> b'.created && (!b.pump.Idle? ==> !b'.pump.Idle?))
            && (!b.created && b == FRESH_B && !act.Accept? ==> b' == b && BStep(b, act).1 == [])
            && (b.failing.Calm? ==> b'.failing.Calm?)
            && (!act.Accept? && Decides(b.pump, b'.pump) ==> !b'.pump.m.New?)
  {
  }

  lemma CStepAnnounced(s: Session, act: CAct)
    requires Announced(s) && ProviderShape(s.c)
    ensures Announced(Step(s, OnC(act)))
  {
    hide CStep, NoNew;
    CStepCreated(s.c, act);
  }

  lemma CStepCreated(c: CSess, act: CAct)
    requires ProviderShape(c)
    ensures var c' := CStep(c, act).0;
            && c'.created == c.created
            && (c == FRESH_C ==> c' == c && CStep(c, act).1 == [])
  {
  }

  lemma CTakeAnnounced(s: Session, fail: Option<nat>)
    requires Announced(s) && |s.up| > 0
    ensures s.up[0].New? ==> s.c == FRESH_C && s.down == []
    ensures !s.up[0].New? ==> s.c.created
    ensures Announced(Step(s, CTake(fail)))
  {
    hide CReceive, NoNew;
    FlagsTake(s.up, Pending(s.b.pump));
    assert NoNew(Up(s)) ==> !Up(s)[0].New? by { NoNewHead(Up(s)); }
    CReceivePump(s.c, s.up[0], fail);
  }

  lemma NoNewHead(ms: seq<Msg>)
    requires |ms| > 0
    ensures NoNew(ms) ==> !ms[0].New?
  {
  }

  lemma BTakeAnnounced(s: Session, fail: Option<nat>)
    requires Announced(s) && |s.down| > 0 && s.b.failing.Calm? && (s.b.io.lost != [] ==> !s.b.listed)
    ensures s.b.created && s.c.created
    ensures Announced(Step(s, BTake(fail)))
  {
    hide BReceive, NoNew;
    BReceiveHolds(s.b, s.down[0], fail);
  }

  // ----- every run -----

  /** The parts of the invariant that the step lemmas ask for. */
  lemma Parts(s: Session)
    requires Inv(s)
    ensures VisitorShape(s.b) && ProviderShape(s.c) && Shutters(s.c)
    ensures s.b.failing.Calm? && s.b.io.lost != [] ==> !s.b.listed
    ensures s.b.created || s.b == FRESH_B
    ensures s.c.created || s.c == FRESH_C
    ensures s.b.created ==> !s.b.pump.Idle?
  {
  }

  lemma OnBKeeps(s: Session, act: BAct)
    requires Inv(s)
    ensures Inv(Step(s, OnB(act)))
  {
    hide BStep, UpConserved, DownConserved, Announced, ProviderOk, VisitorOk, Ordered, Moved;
    Parts(s);
    var t := Step(s, OnB(act));
    BStepConserves(s, act);
    BStepAnnounced(s, act);
    BStepMoves(s, act);
    BStepReads(s, act);
    BStepFlags(s.b, act);
    if act.FailAppend? && s.b.failing.Telling? {
      InsertedOrdered(s.up, s.b.pump, s.c.past.gotEof);
    } else {
      MovedOrdered(s.up, s.b.pump, t.up, t.b.pump, s.c.past.gotEof);
    }
  }

  lemma OnCKeeps(s: Session, act: CAct)
    requires Inv(s)
    ensures Inv(Step(s, OnC(act)))
  {
    Parts(s);
    hide CStep, UpConserved, DownConserved, Announced, ProviderOk, VisitorOk, Ordered, Moved, ProviderShape;
    var t := Step(s, OnC(act));
    CStepConserves(s, act);
    CStepAnnounced(s, act);
    CStepMoves(s, act);
    CStepReads(s, act);
    CStepFlags(s.c, act);
    MovedOrdered(s.down, s.c.pump, t.down, t.c.pump, s.b.past.gotEof);
  }

  lemma CTakeKeeps(s: Session, fail: Option<nat>)
    requires Inv(s)
    ensures Inv(Step(s, CTake(fail)))
  {
    if |s.up| > 0 {
      Parts(s);
      hide CReceive, UpConserved, DownConserved, Announced, ProviderOk, VisitorOk, Ordered, ProviderShape, Shutters;
      CTakeAnnounced(s, fail);
      CTakeConserves(s, fail);
      TakenOrdered(s.up, s.b.pump, s.c.past.gotEof);
      CReceivePump(s.c, s.up[0], fail);
      CReceiveFlags(s.c, s.up[0], fail);
      if s.up[0].New? {
        DialOrdered(s.down, s.b.past.gotEof);
      } else {
        SamePending(s.down, s.c.pump, Step(s, CTake(fail)).c.pump, s.b.past.gotEof);
      }
    }
  }

  lemma DialOrdered(ms: seq<Msg>, gotEof: bool)
    requires Ordered(ms, Idle, gotEof)
    ensures Ordered(ms, Dialing, gotEof)
  {
  }

  lemma SamePending(ms: seq<Msg>, pump: Pump, pump': Pump, gotEof: bool)
    requires Ordered(ms, pump, gotEof) && pump' == pump
    ensures Ordered(ms, pump', gotEof)
  {
  }

  lemma BTakeKeeps(s: Session, fail: Option<nat>)
    requires Inv(s)
    ensures Inv(Step(s, BTake(fail)))
  {
    if |s.down| > 0 && s.b.failing.Calm? {
      Parts(s);
      hide BReceive, UpConserved, DownConserved, Announced, ProviderOk, VisitorOk, Ordered;
      BTakeAnnounced(s, fail);
      BTakeConserves(s, fail);
      TakenOrdered(s.down, s.c.pump, s.b.past.gotEof);
      BReceiveHolds(s.b, s.down[0], fail);
      BReceiveFlags(s.b, s.down[0], fail);
    }
  }

  lemma HaltsKeep(s: Session)
    requires Inv(s)
    ensures Inv(Step(s, BHalts)) && Inv(Step(s, CHalts))
  {
    BHaltFlags(s.b);
    CHaltFlags(s.c);
  }

  lemma StepKeeps(s: Session, event: Event)
    requires Inv(s)
    ensures Inv(Step(s, event))
  {
    hide Inv, Step;
    match event
    case OnB(act) => OnBKeeps(s, act);
    case OnC(act) => OnCKeeps(s, act);
    case BTake(fail) => BTakeKeeps(s, fail);
    case CTake(fail) => CTakeKeeps(s, fail);
    case BHalts => HaltsKeep(s);
    case CHalts => HaltsKeep(s);
  }

  lemma StartInv()
    ensures Inv(START)
  {
  }

  lemma {:induction false} RunKeeps(events: seq<Event>)
    ensures Inv(Run(START, events))
  {
    hide Inv, Step;
    if events == [] {
      StartInv();
    } else {
      var n := |events| - 1;
      RunKeeps(events[..n]);
      StepKeeps(Run(START, events[..n]), events[n]);
    }
  }

  lemma {:induction false} RunConcat(s: Session, a: seq<Event>, b: seq<Event>)
    ensures Run(s, a + b) == Run(Run(s, a), b)
    decreases |b|
  {
    if b == [] {
      assert a + b == a;
    } else {
      var init := b[..|b| - 1];
      RunConcat(s, a, init);
      assert (a + b)[..|a + b| - 1] == a + init;
    }
  }
}
