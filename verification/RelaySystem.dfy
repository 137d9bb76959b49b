/**
 The whole relay: any number of sessions of one visitor and one provider, multiplexed over two FIFO
 connections that meet in the matcher.  Frames travel as they are on the wire.
 */
module RelaySystem {
  import opened Octet
  import opened Bytes
  import opened Options
  import opened Sequences
  import opened RelayCodec
  import opened RelaySession
  import RelayProofs
  import opened RelayTheorems
  import Matcher

  type Id = seq<Byte>

  // ----- frames of sessions -----

  function FrameOf(u: Id, m: Msg): Frame {
    match m
    case New => Frame(NEW_SESSION, u)
    case Ok => Frame(SESSION_OK, u)
    case Err => Frame(SESSION_ERR, u)
    case Data(p) => Frame(DATA, DataBody(u, p))
    case Eof => Frame(DATA_EOF, u)
    case Close => Frame(SESSION_CLOSE, u)
  }

  /** How `run_provider` reads a frame; what it ignores carries no meaning for any session. */
  function ProviderReads(f: Frame): Option<(Id, Msg)> {
    if f.kind == FORWARD_SESSION then Some((f.body, New))
    else if f.kind == DATA then
      if |f.body| < UUID_BYTES then None else Some((f.body[..UUID_BYTES], Data(f.body[UUID_BYTES..])))
    else if f.kind == DATA_EOF then Some((f.body, Eof))
    else if f.kind == SESSION_CLOSE then Some((f.body, Close))
    else if f.kind == SESSION_OK then Some((f.body, Ok))
    else if f.kind == SESSION_ERR then Some((f.body, Err))
    else None
  }

  /** How `run_visitor` reads a frame: the uuid is always the first 36 bytes. */
  function VisitorReads(f: Frame): Option<(Id, Msg)> {
    if |f.body| < UUID_BYTES then None
    else
      var u := f.body[..UUID_BYTES];
      if f.kind == SESSION_OK then Some((u, Ok))
      else if f.kind == SESSION_ERR then Some((u, Err))
      else if f.kind == DATA then Some((u, Data(f.body[UUID_BYTES..])))
      else if f.kind == DATA_EOF then Some((u, Eof))
      else if f.kind == SESSION_CLOSE then Some((u, Close))
      else if f.kind == NEW_SESSION then Some((u, New))
      else None
  }

  /** A frame on its way to the provider, before the matcher has renamed it. */
  function MatcherReads(f: Frame): Option<(Id, Msg)> {
    ProviderReads(Matcher.Translate(Matcher.Visitor, f))
  }

  lemma FrameReadBack(u: Id, m: Msg)
    requires |u| == UUID_BYTES
    ensures MatcherReads(FrameOf(u, m)) == Some((u, m))
    ensures VisitorReads(FrameOf(u, m)) == Some((u, m))
  {
    assert u[..UUID_BYTES] == u;
  }

  /** The short frames' length. */
  lemma ShortLength()
    ensures WriteU32(37) == [0, 0, 0, 37] && WriteU32(1) == [0, 0, 0, 1]
  {
    WriteDigits(37, 0, 0, 0, 37);
    WriteDigits(1, 0, 0, 0, 1);
  }

  /** What each message of a session is on the wire; DATA has the length of its payload in its header. */
  lemma WireBytes(u: Id, m: Msg)
    requires |u| == UUID_BYTES && (m.Data? ==> 37 + |m.payload| < TWO_32)
    ensures var b := BuildFrame(FrameOf(u, m));
            match m
            case New => b == [0, 0, 0, 37, 0x03] + u
            case Ok => b == [0, 0, 0, 37, 0x05] + u
            case Err => b == [0, 0, 0, 37, 0x06] + u
            case Data(p) => Quad(b, 0) == 37 + |p| && b[4] == 0x10 && b[5..] == u + p
            case Eof => b == [0, 0, 0, 37, 0x11] + u
            case Close => b == [0, 0, 0, 37, 0x12] + u
    ensures m.New? ==> BuildFrame(Matcher.Translate(Matcher.Visitor, FrameOf(u, m))) == [0, 0, 0, 37, 0x04] + u
    ensures !m.New? ==> Matcher.Translate(Matcher.Visitor, FrameOf(u, m)) == FrameOf(u, m)
  {
    ShortLength();
    hide WriteU32, Quad;
    if m.Data? {
      FrameLayout(FrameOf(u, m));
    } else {
      ShortFrame(FrameOf(u, m));
      ShortFrame(Matcher.Translate(Matcher.Visitor, FrameOf(u, m)));
    }
  }

  lemma ShortFrame(f: Frame)
    requires |f.body| == 36
    ensures BuildFrame(f) == [0, 0, 0, 37, f.kind] + f.body
  {
    ShortLength();
    hide WriteU32;
    var zero: Byte, len: Byte := 0, 37;
    assert [zero, zero, zero, len] + [f.kind] == [0, 0, 0, 37, f.kind];
  }

  /** The frames between a node and the matcher that belong to no session. */
  lemma ControlBytes(id: Matcher.Id, role: Matcher.Role)
    requires |id| + 3 < TWO_32
    ensures BuildFrame(Matcher.READY_FRAME) == [0, 0, 0, 1, 0x02] && BuildFrame(Matcher.EOF_FRAME) == [0, 0, 0, 1, 0xFF]
    ensures var b := BuildFrame(Frame(REGISTER, Matcher.RegisterBody(id, role)));
            && Quad(b, 0) == |id| + 3 && b[4] == 0x01
            && b[5..] == id + [0x20] + [if role.Visitor? then 0x42 else 0x43]
  {
    ShortLength();
    hide WriteU32, Quad;
    FrameLayout(Frame(REGISTER, Matcher.RegisterBody(id, role)));
  }

  // ----- links -----

  /** A FIFO connection; once broken, frames that have not arrived never will. */
  datatype RawLink = RawLink(frames: seq<Frame>, dropped: seq<Frame>, dead: bool)

  type Link = l: RawLink | !l.dead ==> l.dropped == [] witness RawLink([], [], false)

  function All(l: Link): seq<Frame> {
    l.frames + l.dropped
  }

  function Put(l: Link, f: Frame): (l': Link)
    ensures All(l') == All(l) + [f]
    ensures l'.dead == l.dead && l'.frames == if l.dead then l.frames else l.frames + [f]
  {
    if l.dead then RawLink(l.frames, l.dropped + [f], true) else RawLink(l.frames + [f], [], false)
  }

  function Pop(l: Link): (l': Link)
    requires l.frames != []
    ensures All(l) == [l.frames[0]] + All(l')
  {
    RawLink(l.frames[1..], l.dropped, l.dead)
  }

  /** The link breaks with `k` frames still to arrive. */
  function Cut(l: Link, k: nat): (l': Link)
    ensures All(l') == All(l)
    ensures l'.dead && l'.frames == l.frames[..Min(k, |l.frames|)]
  {
    var n := Min(k, |l.frames|);
    assert l.frames[..n] + l.frames[n..] == l.frames;
    RawLink(l.frames[..n], l.frames[n..] + l.dropped, true)
  }

  // ----- the system -----

  /** `ba`, `ac`: visitor to matcher to provider; `ca`, `ab`: the way back. */
  datatype System = System(
    b: map<Id, BSess>, c: map<Id, CSess>,
    ba: Link, ac: Link, ca: Link, ab: Link,
    bStopped: bool, cStopped: bool)

  datatype Which = BA | AC | CA | AB

  datatype Act =
    | VisitorActs(u: Id, bAct: BAct)     // the accept loop, a pump, or the reader's own writes
    | ProviderActs(u: Id, cAct: CAct)    // a connect coroutine or pump
    | VisitorTakes(fail: Option<nat>)    // the visitor's reader handles the next frame
    | ProviderTakes(fail: Option<nat>)   // the provider's reader handles the next frame
    | Forwards | Returns                 // a matcher pump moves one frame
    | EndsUp | EndsDown                  // a matcher pump writes its final EOF frame
    | Breaks(link: Which, left: nat)
    | VisitorStops | ProviderStops

  function BOf(s: System, u: Id): BSess {
    if u in s.b then s.b[u] else FRESH_B
  }

  function COf(s: System, u: Id): CSess {
    if u in s.c then s.c[u] else FRESH_C
  }

  function PutOut(l: Link, u: Id, out: seq<Msg>): Link
    decreases |out|
  {
    if out == [] then l else PutOut(Put(l, FrameOf(u, out[0])), u, out[1..])
  }

  function StopB(s: System): System {
    s.(b := map u | u in s.b :: BHalt(s.b[u]), bStopped := true)
  }

  function StopC(s: System): System {
    s.(c := map u | u in s.c :: CHalt(s.c[u]), cStopped := true)
  }

  /** The visitor's reader is not waiting in its own error path. */
  predicate ReaderFree(s: System) {
    forall u | u in s.b :: s.b[u].failing.Calm?
  }

  /** A direct write that fails throws out of the provider's loop. */
  predicate EndsProvider(c: CSess, m: Msg, fail: Option<nat>) {
    m.Data? && m.payload != [] && c.listed && !c.ends.closed && c.dial.connected && !(Usable(c.sock) && fail.None?)
  }

  function VisitorTake(s: System, fail: Option<nat>): System
    requires s.ab.frames != []
  {
    var f, t := s.ab.frames[0], s.(ab := Pop(s.ab));
    if f.kind == EOF then StopB(t)
    else
      match VisitorReads(f)
      case None => t
      case Some((u, m)) => t.(b := s.b[u := BReceive(BOf(s, u), m, fail)])
  }

  function ProviderTake(s: System, fail: Option<nat>): System
    requires s.ac.frames != []
  {
    var f, t := s.ac.frames[0], s.(ac := Pop(s.ac));
    if f.kind == EOF then StopC(t)
    else
      match ProviderReads(f)
      case None => t
      case Some((u, m)) =>
        var t' := t.(c := s.c[u := CReceive(COf(s, u), m, fail)]);
        if EndsProvider(COf(s, u), m, fail) then StopC(t') else t'
  }

  function Break(s: System, link: Which, left: nat): System {
    match link
    case BA => s.(ba := Cut(s.ba, left))
    case AC => s.(ac := Cut(s.ac, left))
    case CA => s.(ca := Cut(s.ca, left))
    case AB => s.(ab := Cut(s.ab, left))
  }

  /** One step of the system; an act that is not enabled changes nothing. */
  function Next(s: System, act: Act): System {
    match act
    case VisitorActs(u, bAct) =>
      if |u| != UUID_BYTES then s
      else
        var (b, out) := BStep(BOf(s, u), bAct);
        s.(b := s.b[u := b], ba := PutOut(s.ba, u, out))
    case ProviderActs(u, cAct) =>
      if |u| != UUID_BYTES then s
      else
        var (c, out) := CStep(COf(s, u), cAct);
        s.(c := s.c[u := c], ca := PutOut(s.ca, u, out))
    case VisitorTakes(fail) =>
      if s.bStopped || !ReaderFree(s) || s.ab.frames == [] then s else VisitorTake(s, fail)
    case ProviderTakes(fail) =>
      if s.cStopped || s.ac.frames == [] then s else ProviderTake(s, fail)
    case Forwards =>
      if s.ba.frames == [] then s else s.(ba := Pop(s.ba), ac := Put(s.ac, Matcher.Translate(Matcher.Visitor, s.ba.frames[0])))
    case Returns =>
      if s.ca.frames == [] then s else s.(ca := Pop(s.ca), ab := Put(s.ab, Matcher.Translate(Matcher.Provider, s.ca.frames[0])))
    case EndsUp => s.(ac := Put(s.ac, Frame(EOF, [])))
    case EndsDown => s.(ab := Put(s.ab, Frame(EOF, [])))
    case Breaks(link, left) => Break(s, link, left)
    case VisitorStops => StopB(s)
    case ProviderStops => StopC(s)
  }

  function Idle(): System {
    var l: Link := RawLink([], [], false);
    System(map[], map[], l, l, l, l, false, false)
  }

  function RunAll(acts: seq<Act>): System {
    if acts == [] then Idle() else Next(RunAll(acts[..|acts| - 1]), acts[|acts| - 1])
  }

  // ----- one session of it -----

  /** The messages of session `u` among some frames. */
  function Filter(decode: Frame -> Option<(Id, Msg)>, frames: seq<Frame>, u: Id): seq<Msg> {
    if frames == [] then []
    else One(decode(frames[0]), u) + Filter(decode, frames[1..], u)
  }

  function One(read: Option<(Id, Msg)>, u: Id): seq<Msg> {
    if read.Some? && read.value.0 == u then [read.value.1] else []
  }

  /** What the system looks like to session `u` alone. */
  function Project(s: System, u: Id): Session {
    Session(BOf(s, u), COf(s, u), Upward(s.ac, s.ba, u), Downward(s.ab, s.ca, u))
  }

  function Upward(near: Link, far: Link, u: Id): seq<Msg> {
    Filter(ProviderReads, All(near), u) + Filter(MatcherReads, All(far), u)
  }

  function Downward(near: Link, far: Link, u: Id): seq<Msg> {
    Filter(VisitorReads, All(near), u) + Filter(VisitorReads, All(far), u)
  }

  /** The events of session `u` that an act of the system amounts to: none, if it concerns another. */
  function Trace(s: System, act: Act, u: Id): seq<Event> {
    match act
    case VisitorActs(v, bAct) => if v == u then [OnB(bAct)] else []
    case ProviderActs(v, cAct) => if v == u then [OnC(cAct)] else []
    case VisitorTakes(fail) =>
      if s.bStopped || !ReaderFree(s) || s.ab.frames == [] then []
      else if s.ab.frames[0].kind == EOF then [BHalts]
      else if One(VisitorReads(s.ab.frames[0]), u) != [] then [BTake(fail)] else []
    case ProviderTakes(fail) =>
      if s.cStopped || s.ac.frames == [] then []
      else if s.ac.frames[0].kind == EOF then [CHalts]
      else
        var read := ProviderReads(s.ac.frames[0]);
        var ends := read.Some? && EndsProvider(COf(s, read.value.0), read.value.1, fail);
        if One(read, u) != [] then if ends then [CTake(fail), CHalts] else [CTake(fail)]
        else if ends then [CHalts] else []
    case VisitorStops => [BHalts]
    case ProviderStops => [CHalts]
    case _ => []
  }

  lemma {:induction false} FilterConcat(decode: Frame -> Option<(Id, Msg)>, a: seq<Frame>, b: seq<Frame>, u: Id)
    ensures Filter(decode, a + b, u) == Filter(decode, a, u) + Filter(decode, b, u)
  {
    if a == [] {
      assert a + b == b;
    } else {
      assert (a + b)[1..] == a[1..] + b;
      FilterConcat(decode, a[1..], b, u);
      Assoc(One(decode(a[0]), u), Filter(decode, a[1..], u), Filter(decode, b, u));
    }
  }

  lemma FilterPut(decode: Frame -> Option<(Id, Msg)>, l: Link, f: Frame, u: Id)
    ensures Filter(decode, All(Put(l, f)), u) == Filter(decode, All(l), u) + One(decode(f), u)
  {
    hide Put;
    FilterConcat(decode, All(l), [f], u);
    assert Filter(decode, [f], u) == One(decode(f), u) + Filter(decode, [], u);
  }

  lemma FilterPop(decode: Frame -> Option<(Id, Msg)>, l: Link, u: Id)
    requires l.frames != []
    ensures Filter(decode, All(l), u) == One(decode(l.frames[0]), u) + Filter(decode, All(Pop(l)), u)
  {
    hide Pop;
    FilterConcat(decode, [l.frames[0]], All(Pop(l)), u);
    assert Filter(decode, [l.frames[0]], u) == One(decode(l.frames[0]), u) + Filter(decode, [], u);
  }

  /** What a coroutine of session `v` sends reaches session `u` only if they are the same. */
  lemma {:induction false} FilterOut(decode: Frame -> Option<(Id, Msg)>, l: Link, v: Id, out: seq<Msg>, u: Id)
    requires forall m {:trigger FrameOf(v, m)} :: decode(FrameOf(v, m)) == Some((v, m))
    ensures Filter(decode, All(PutOut(l, v, out)), u) == Filter(decode, All(l), u) + (if v == u then out else [])
    decreases |out|
  {
    hide Put;
    if out == [] {
      assert Filter(decode, All(l), u) + [] == Filter(decode, All(l), u);
    } else {
      FilterPut(decode, l, FrameOf(v, out[0]), u);
      FilterOut(decode, Put(l, FrameOf(v, out[0])), v, out[1..], u);
      if v == u {
        assert out == [out[0]] + out[1..];
        Assoc(Filter(decode, All(l), u), [out[0]], out[1..]);
      }
    }
  }

  lemma RunOne(s: Session, event: Event)
    ensures Run(s, [event]) == Step(s, event) && Run(s, []) == s
  {
    assert [event][..0] == [];
  }

  lemma VisitorActsProject(s: System, v: Id, bAct: BAct, u: Id)
    requires |v| == UUID_BYTES
    ensures Project(Next(s, VisitorActs(v, bAct)), u) == Run(Project(s, u), Trace(s, VisitorActs(v, bAct), u))
  {
    hide BStep, FrameOf, MatcherReads, Filter, Put;
    var out := BStep(BOf(s, v), bAct).1;
    forall m ensures MatcherReads(FrameOf(v, m)) == Some((v, m)) {
      FrameReadBack(v, m);
    }
    FilterOut(MatcherReads, s.ba, v, out, u);
    RunOne(Project(s, u), OnB(bAct));
    var front, back := Filter(ProviderReads, All(s.ac), u), Filter(MatcherReads, All(s.ba), u);
    Assoc(front, back, out);
    assert back + [] == back;
  }

  lemma ProviderActsProject(s: System, v: Id, cAct: CAct, u: Id)
    requires |v| == UUID_BYTES
    ensures Project(Next(s, ProviderActs(v, cAct)), u) == Run(Project(s, u), Trace(s, ProviderActs(v, cAct), u))
  {
    hide CStep, FrameOf, VisitorReads, Filter, Put;
    var out := CStep(COf(s, v), cAct).1;
    forall m ensures VisitorReads(FrameOf(v, m)) == Some((v, m)) {
      FrameReadBack(v, m);
    }
    FilterOut(VisitorReads, s.ca, v, out, u);
    RunOne(Project(s, u), OnC(cAct));
    var front, back := Filter(VisitorReads, All(s.ab), u), Filter(VisitorReads, All(s.ca), u);
    Assoc(front, back, out);
    assert back + [] == back;
  }

  lemma HaltsProject(s: System, u: Id)
    ensures BOf(StopB(s), u) == BHalt(BOf(s, u))
    ensures COf(StopC(s), u) == CHalt(COf(s, u))
  {
  }

  lemma UpwardPop(near: Link, far: Link, u: Id)
    requires near.frames != []
    ensures Upward(near, far, u) == One(ProviderReads(near.frames[0]), u) + Upward(Pop(near), far, u)
  {
    hide Filter, All, Pop, ProviderReads, MatcherReads, One;
    FilterPop(ProviderReads, near, u);
    Assoc(One(ProviderReads(near.frames[0]), u), Filter(ProviderReads, All(Pop(near)), u), Filter(MatcherReads, All(far), u));
  }

  lemma DownwardPop(near: Link, far: Link, u: Id)
    requires near.frames != []
    ensures Downward(near, far, u) == One(VisitorReads(near.frames[0]), u) + Downward(Pop(near), far, u)
  {
    hide Filter, All, Pop, VisitorReads, One;
    FilterPop(VisitorReads, near, u);
    Assoc(One(VisitorReads(near.frames[0]), u), Filter(VisitorReads, All(Pop(near)), u), Filter(VisitorReads, All(far), u));
  }

  lemma VisitorTakesProject(s: System, fail: Option<nat>, u: Id)
    ensures Project(Next(s, VisitorTakes(fail)), u) == Run(Project(s, u), Trace(s, VisitorTakes(fail), u))
  {
    hide BReceive, BHalt, VisitorReads, Upward, Downward, Pop, Run;
    var act := VisitorTakes(fail);
    RunNone(Project(s, u));
    if !s.bStopped && ReaderFree(s) && s.ab.frames != [] {
      var f := s.ab.frames[0];
      DownwardPop(s.ab, s.ca, u);
      if f.kind == EOF {
        NoMeaning(f);
        HaltsProject(s.(ab := Pop(s.ab)), u);
        RunOne(Project(s, u), BHalts);
      } else {
        RunOne(Project(s, u), BTake(fail));
      }
    }
  }

  lemma RunNone(s: Session)
    ensures Run(s, []) == s
  {
  }

  /** The final frame of a link speaks to every session and carries no message of any. */
  lemma NoMeaning(f: Frame)
    requires f.kind == EOF
    ensures VisitorReads(f) == None && ProviderReads(f) == None && MatcherReads(f) == None
  {
  }

  lemma RunTwo(s: Session, first: Event, second: Event)
    ensures Run(s, [first, second]) == Step(Step(s, first), second)
  {
    RunOne(s, first);
    assert [first, second][..1] == [first];
  }

  lemma ProviderTakesProject(s: System, fail: Option<nat>, u: Id)
    ensures Project(Next(s, ProviderTakes(fail)), u) == Run(Project(s, u), Trace(s, ProviderTakes(fail), u))
  {
    hide CReceive, CHalt, ProviderReads, Upward, Downward, Pop, Run, EndsProvider;
    var act := ProviderTakes(fail);
    RunNone(Project(s, u));
    if !s.cStopped && s.ac.frames != [] {
      var f := s.ac.frames[0];
      UpwardPop(s.ac, s.ba, u);
      RunOne(Project(s, u), CHalts);
      if f.kind == EOF {
        NoMeaning(f);
        HaltsProject(s.(ac := Pop(s.ac)), u);
      } else {
        TakenProject(s, fail, u);
        TakenRuns(Project(s, u), One(ProviderReads(f), u), Upward(Pop(s.ac), s.ba, u), fail);
      }
    }
  }

  /** What taking a frame means for a session: a step if the frame is its own, else nothing. */
  lemma TakenRuns(s: Session, mine: seq<Msg>, rest: seq<Msg>, fail: Option<nat>)
    requires |mine| <= 1 && s.up == mine + rest
    ensures mine == [] ==> s.up == rest
    ensures mine != [] ==> Run(s, [CTake(fail)]) == s.(c := CReceive(s.c, mine[0], fail), up := rest)
    ensures mine != [] ==>
              Run(s, [CTake(fail), CHalts]) == s.(c := CHalt(CReceive(s.c, mine[0], fail)), up := rest)
  {
    hide Run, CReceive, CHalt;
    RunOne(s, CTake(fail));
    RunTwo(s, CTake(fail), CHalts);
  }

  lemma TakenProject(s: System, fail: Option<nat>, u: Id)
    requires s.ac.frames != [] && s.ac.frames[0].kind != EOF
    ensures var read := ProviderReads(s.ac.frames[0]);
            var c := if One(read, u) != [] then CReceive(COf(s, u), read.value.1, fail) else COf(s, u);
            COf(ProviderTake(s, fail), u) ==
            (if read.Some? && EndsProvider(COf(s, read.value.0), read.value.1, fail) then CHalt(c) else c)
  {
    hide CReceive, CHalt, ProviderReads, EndsProvider, Pop, StopC, COf;
    var read := ProviderReads(s.ac.frames[0]);
    if read.Some? {
      var (v, m) := read.value;
      var t := s.(ac := Pop(s.ac));
      StoredProject(t, v, CReceive(COf(s, v), m, fail), u);
      HaltsProject(t.(c := s.c[v := CReceive(COf(s, v), m, fail)]), u);
      SameTable(s, t, u);
    } else {
      SameTable(s, s.(ac := Pop(s.ac)), u);
    }
  }

  lemma StoredProject(s: System, v: Id, c: CSess, u: Id)
    ensures COf(s.(c := s.c[v := c]), u) == if v == u then c else COf(s, u)
  {
  }

  lemma SameTable(s: System, t: System, u: Id)
    requires s.c == t.c
    ensures COf(s, u) == COf(t, u)
  {
  }

  lemma ForwardsProject(ac: Link, ba: Link, u: Id)
    requires ba.frames != []
    ensures Upward(Put(ac, Matcher.Translate(Matcher.Visitor, ba.frames[0])), Pop(ba), u) == Upward(ac, ba, u)
  {
    hide Filter, All, Pop, Put, ProviderReads, Matcher.Translate, One;
    var f := ba.frames[0];
    FilterPop(MatcherReads, ba, u);
    FilterPut(ProviderReads, ac, Matcher.Translate(Matcher.Visitor, f), u);
    Assoc(Filter(ProviderReads, All(ac), u), One(MatcherReads(f), u), Filter(MatcherReads, All(Pop(ba)), u));
  }

  lemma ReturnsProject(ab: Link, ca: Link, u: Id)
    requires ca.frames != []
    ensures Downward(Put(ab, Matcher.Translate(Matcher.Provider, ca.frames[0])), Pop(ca), u) == Downward(ab, ca, u)
  {
    hide Filter, All, Pop, Put, VisitorReads, One;
    var f := ca.frames[0];
    FilterPop(VisitorReads, ca, u);
    FilterPut(VisitorReads, ab, f, u);
    Assoc(Filter(VisitorReads, All(ab), u), One(VisitorReads(f), u), Filter(VisitorReads, All(Pop(ca)), u));
  }

  lemma FinalFrame(decode: Frame -> Option<(Id, Msg)>, l: Link, u: Id)
    requires decode(Frame(EOF, [])) == None
    ensures Filter(decode, All(Put(l, Frame(EOF, []))), u) == Filter(decode, All(l), u)
  {
    hide Filter, All, Put;
    FilterPut(decode, l, Frame(EOF, []), u);
    assert Filter(decode, All(l), u) + [] == Filter(decode, All(l), u);
  }

  /** Moving a frame through the matcher, a matcher's final frame and a broken link are invisible. */
  lemma MatcherProject(s: System, act: Act, u: Id)
    requires act.Forwards? || act.Returns? || act.EndsUp? || act.EndsDown? || act.Breaks?
    ensures Project(Next(s, act), u) == Project(s, u)
  {
    hide Filter, All, Pop, Put, Cut, ProviderReads, VisitorReads, MatcherReads, Matcher.Translate, One;
    NoMeaning(Frame(EOF, []));
    match act
    case Forwards => if s.ba.frames != [] { ForwardsProject(s.ac, s.ba, u); }
    case Returns => if s.ca.frames != [] { ReturnsProject(s.ab, s.ca, u); }
    case EndsUp => FinalFrame(ProviderReads, s.ac, u);
    case EndsDown => FinalFrame(VisitorReads, s.ab, u);
    case Breaks(_, _) =>
  }

  /** One act of the system is, to each session, a few steps of that session alone. */
  lemma ActProjects(s: System, act: Act, u: Id)
    requires |u| == UUID_BYTES
    ensures Project(Next(s, act), u) == Run(Project(s, u), Trace(s, act, u))
  {
    hide BStep, CStep, BHalt, CHalt, VisitorTake, ProviderTake, Filter, Put, Pop, Cut, Run, EndsProvider;
    RunNone(Project(s, u));
    match act
    case VisitorActs(v, bAct) => if |v| == UUID_BYTES { VisitorActsProject(s, v, bAct, u); }
    case ProviderActs(v, cAct) => if |v| == UUID_BYTES { ProviderActsProject(s, v, cAct, u); }
    case VisitorTakes(fail) => VisitorTakesProject(s, fail, u);
    case ProviderTakes(fail) => ProviderTakesProject(s, fail, u);
    case VisitorStops =>
      HaltsProject(s, u);
      RunOne(Project(s, u), BHalts);
    case ProviderStops =>
      HaltsProject(s, u);
      RunOne(Project(s, u), CHalts);
    case _ => MatcherProject(s, act, u);
  }

  /** The events of session `u` in a run of the whole system. */
  function History(acts: seq<Act>, u: Id): seq<Event> {
    if acts == [] then []
    else
      var before := acts[..|acts| - 1];
      History(before, u) + Trace(RunAll(before), acts[|acts| - 1], u)
  }

  /** Session independence: a run of any number of sessions is, to each of them, a run of it alone. */
  lemma {:induction false} Projection(acts: seq<Act>, u: Id)
    requires |u| == UUID_BYTES
    ensures Project(RunAll(acts), u) == Run(START, History(acts, u))
  {
    if acts != [] {
      hide Next, Step, Trace, Project;
      var before, act := acts[..|acts| - 1], acts[|acts| - 1];
      Projection(before, u);
      ActProjects(RunAll(before), act, u);
      RelayProofs.RunConcat(START, History(before, u), Trace(RunAll(before), act, u));
    }
  }

  /** The session that an act is about; stopping a node is about all of them, the matcher about none. */
  function Subject(s: System, act: Act): Option<Id> {
    match act
    case VisitorActs(v, _) => Some(v)
    case ProviderActs(v, _) => Some(v)
    case VisitorTakes(_) =>
      if s.ab.frames == [] || VisitorReads(s.ab.frames[0]).None? then None else Some(VisitorReads(s.ab.frames[0]).value.0)
    case ProviderTakes(_) =>
      if s.ac.frames == [] || ProviderReads(s.ac.frames[0]).None? then None else Some(ProviderReads(s.ac.frames[0]).value.0)
    case _ => None
  }

  /** The act ends the visitor's reader, which closes every client. */
  predicate EndsReader(s: System, act: Act) {
    || act.VisitorStops?
    || (act.VisitorTakes? && !s.bStopped && ReaderFree(s) && s.ab.frames != [] && s.ab.frames[0].kind == EOF)
  }

  /** The act ends the provider's loop, which closes every remote. */
  predicate EndsLoop(s: System, act: Act) {
    || act.ProviderStops?
    || (act.ProviderTakes? && !s.cStopped && s.ac.frames != [] &&
        (s.ac.frames[0].kind == EOF ||
         var read := ProviderReads(s.ac.frames[0]);
         read.Some? && EndsProvider(COf(s, read.value.0), read.value.1, act.fail)))
  }

  /**
   Exactly when an act about one session (or about none) leaves another untouched: unless it ends a node
   on which that other session is still in the table.
   */
  lemma OthersUntouched(s: System, act: Act, u: Id)
    requires |u| == UUID_BYTES && Subject(s, act) != Some(u)
    ensures Project(Next(s, act), u) == Project(s, u) <==>
              && !(EndsReader(s, act) && BOf(s, u).created && BOf(s, u).listed)
              && !(EndsLoop(s, act) && COf(s, u).created && COf(s, u).listed)
  {
    hide Next, Run, Project, ProviderReads, VisitorReads, EndsProvider;
    ActProjects(s, act, u);
    RunNone(Project(s, u));
    RunOne(Project(s, u), BHalts);
    RunOne(Project(s, u), CHalts);
    ProjectParts(s, u);
    assert Trace(s, act, u) == (if EndsReader(s, act) then [BHalts] else if EndsLoop(s, act) then [CHalts] else []);
  }

  lemma ProjectParts(s: System, u: Id)
    ensures Project(s, u).b == BOf(s, u) && Project(s, u).c == COf(s, u)
  {
  }

  // ----- what ends the provider, and what does nothing -----

  /**
   Exactly which frame ends the provider's loop: the final one, or DATA with some bytes for a session that is
   listed, not closed and connected, if the write fails.  Then no session is left in the table.
   */
  lemma LoopEndsExact(s: System, fail: Option<nat>)
    requires !s.cStopped && s.ac.frames != []
    ensures var f, t := s.ac.frames[0], Next(s, ProviderTakes(fail));
            t.cStopped <==>
              || f.kind == 0xFF
              || (f.kind == 0x10 && |f.body| > 36 &&
                  var c := COf(s, f.body[..36]);
                  && c.listed && !c.ends.closed && c.dial.connected
                  && (fail.Some? || !c.sock.open || c.sock.shut || c.sock.broken))
    ensures var t := Next(s, ProviderTakes(fail));
            t.cStopped ==> forall u :: COf(t, u).created ==> !COf(t, u).listed
  {
    hide CReceive, Pop;
    if s.ac.frames[0].kind == EOF {
      StoppedLists(s.(ac := Pop(s.ac)));
    } else if ProviderReads(s.ac.frames[0]).Some? {
      var (u, m) := ProviderReads(s.ac.frames[0]).value;
      StoppedLists(s.(ac := Pop(s.ac), c := s.c[u := CReceive(COf(s, u), m, fail)]));
    }
  }

  lemma StoppedLists(s: System)
    ensures forall u :: COf(StopC(s), u).created ==> !COf(StopC(s), u).listed
  {
    forall u ensures COf(StopC(s), u).created ==> !COf(StopC(s), u).listed {
      HaltsProject(s, u);
    }
  }

  /** Frames that no session hears of: too short for a uuid, or of a method that the node does not know. */
  lemma Ignored(s: System, fail: Option<nat>)
    ensures !s.bStopped && ReaderFree(s) && s.ab.frames != [] ==>
              var f := s.ab.frames[0];
              (f.kind != 0xFF && |f.body| < 36) || f.kind in {0x01, 0x02, 0x04} ==>
                Next(s, VisitorTakes(fail)) == s.(ab := Pop(s.ab))
    ensures !s.cStopped && s.ac.frames != [] ==>
              var f := s.ac.frames[0];
              (f.kind == 0x10 && |f.body| < 36) || f.kind in {0x01, 0x02, 0x03} ==>
                Next(s, ProviderTakes(fail)) == s.(ac := Pop(s.ac))
  {
    hide BReceive, CReceive, Pop, StopB, StopC;
  }

  // ----- what every session is promised, among any others -----

  /**
   Nothing but the bytes of the session's own peer is ever given to a client or a remote: to the client in
   order, to the remote in order unless DATA overtook buffered DATA.
   */
  lemma Isolation(acts: seq<Act>, u: Id)
    requires |u| == UUID_BYTES
    ensures var b, c := BOf(RunAll(acts), u), COf(RunAll(acts), u);
            && b.io.wrote <= c.io.read
            && (!c.race.overtaken ==> c.io.wrote <= b.io.read)
            && multiset(c.io.wrote) <= multiset(b.io.read)
  {
    hide Run, RunAll, History;
    Projection(acts, u);
    PrefixSafety(History(acts, u));
  }

  lemma {:induction false} DeliveryForAll(acts: seq<Act>, u: Id)
    requires |u| == UUID_BYTES && Undisturbed(Project(RunAll(acts), u)) && Removed(Project(RunAll(acts), u))
    ensures var b, c := BOf(RunAll(acts), u), COf(RunAll(acts), u);
            && c.io.wrote == b.io.read && b.io.wrote == c.io.read
            && c.sock.shut && c.sock.shutAt == |b.io.read|
            && b.sock.shut && b.sock.shutAt == |c.io.read|
  {
    hide Run, RunAll, History;
    Projection(acts, u);
    CompleteDelivery(History(acts, u));
  }
}
