/** A run of the whole relay in which one session's failed write ends another session. */
module RelayWitness {
  import opened Options
  import opened RelayCodec
  import opened RelaySession
  import opened RelaySystem
  import Matcher

  function Alive(frames: seq<Frame>): Link {
    RawLink(frames, [], false)
  }

  /** What a run with two sessions shows of them, and of the way from visitor to provider. */
  datatype Scene = Scene(b1: BSess, b2: BSess, c1: CSess, c2: CSess, ba: seq<Frame>, ac: seq<Frame>)

  ghost predicate Shows(acts: seq<Act>, u: Id, v: Id, x: Scene) {
    var s := RunAll(acts);
    && BOf(s, u) == x.b1 && BOf(s, v) == x.b2 && COf(s, u) == x.c1 && COf(s, v) == x.c2
    && s.ba == Alive(x.ba) && s.ac == Alive(x.ac) && !s.cStopped
  }

  lemma RunAllSnoc(acts: seq<Act>, act: Act)
    ensures RunAll(acts + [act]) == Next(RunAll(acts), act)
  {
    assert (acts + [act])[..|acts|] == acts;
  }

  function Posted(w: Id, out: seq<Msg>): seq<Frame> {
    if out == [] then [] else [FrameOf(w, out[0])]
  }

  lemma VisitorMoves(acts: seq<Act>, u: Id, v: Id, x: Scene, act: BAct)
    requires |u| == |v| == UUID_BYTES && u != v && Shows(acts, u, v, x) && |BStep(x.b1, act).1| <= 1
    ensures var (b, out) := BStep(x.b1, act);
            Shows(acts + [VisitorActs(u, act)], u, v, x.(b1 := b, ba := x.ba + Posted(u, out)))
  {
    hide BStep, RunAll, FrameOf;
    RunAllSnoc(acts, VisitorActs(u, act));
    var out := BStep(x.b1, act).1;
    if out == [] {
      assert x.ba + Posted(u, out) == x.ba;
    } else {
      assert PutOut(Alive(x.ba), u, out) == PutOut(Put(Alive(x.ba), FrameOf(u, out[0])), u, []);
    }
  }

  lemma Swapped(acts: seq<Act>, u: Id, v: Id, x: Scene)
    requires Shows(acts, u, v, x)
    ensures Shows(acts, v, u, Scene(x.b2, x.b1, x.c2, x.c1, x.ba, x.ac))
  {
    hide RunAll;
  }

  lemma Dials(acts: seq<Act>, u: Id, v: Id, x: Scene)
    requires |u| == |v| == UUID_BYTES && u != v && Shows(acts, u, v, x) && x.c1.pump.Dialing?
    ensures Shows(acts + [ProviderActs(u, DialOk)], u, v, x.(c1 := CStep(x.c1, DialOk).0))
  {
    hide RunAll;
    RunAllSnoc(acts, ProviderActs(u, DialOk));
  }

  lemma MatcherForwards(acts: seq<Act>, u: Id, v: Id, x: Scene)
    requires Shows(acts, u, v, x) && x.ba != []
    ensures Shows(acts + [Forwards], u, v,
                  x.(ba := x.ba[1..], ac := x.ac + [Matcher.Translate(Matcher.Visitor, x.ba[0])]))
  {
    hide RunAll, Matcher.Translate;
    RunAllSnoc(acts, Forwards);
  }

  lemma Announces(acts: seq<Act>, u: Id, v: Id, x: Scene)
    requires |u| == |v| == UUID_BYTES && u != v && Shows(acts, u, v, x)
    requires x.ac != [] && x.ac[0] == Frame(FORWARD_SESSION, u)
    ensures Shows(acts + [ProviderTakes(None)], u, v, x.(c1 := CReceive(x.c1, New, None), ac := x.ac[1..]))
  {
    hide RunAll, CReceive;
    RunAllSnoc(acts, ProviderTakes(None));
  }

  const READING := FRESH_B.(created := true, listed := true, sock := OPEN, pump := Reading)
  const ANNOUNCED := FRESH_B.(created := true, listed := true, sock := OPEN, pump := Sent(New))
  const CONNECTED := FRESH_C.(created := true, listed := true, dial := Dial(false, true), sock := OPEN, pump := Sending(Ok))

  /** Both clients are announced and the first has sent a byte; nothing has left the visitor's link yet. */
  lemma Talks(u: Id, v: Id) returns (acts: seq<Act>, b: BSess)
    requires |u| == |v| == UUID_BYTES && u != v
    ensures Shows(acts, u, v, Scene(b, ANNOUNCED, FRESH_C, FRESH_C,
              [Frame(NEW_SESSION, u), Frame(NEW_SESSION, v), Frame(DATA, DataBody(u, [1]))], []))
  {
    hide Shows, DataBody;
    assert Shows([], u, v, Scene(FRESH_B, FRESH_B, FRESH_C, FRESH_C, [], [])) by { Begins(u, v); }
    var x := Scene(FRESH_B, FRESH_B, FRESH_C, FRESH_C, [], []);
    acts := [];
    VisitorMoves(acts, u, v, x, Accept);
    acts := acts + [VisitorActs(u, Accept)];
    x := x.(b1 := BStep(x.b1, Accept).0);
    assert [] + Posted(u, []) == [];
    VisitorMoves(acts, u, v, x, Append);
    acts := acts + [VisitorActs(u, Append)];
    x := x.(b1 := ANNOUNCED, ba := [Frame(NEW_SESSION, u)]);
    assert [] + Posted(u, [New]) == x.ba;
    acts, x := SecondAccepts(acts, u, v, x);
    VisitorMoves(acts, u, v, x, Resume);
    acts := acts + [VisitorActs(u, Resume)];
    x := x.(b1 := READING);
    assert x.ba + Posted(u, []) == x.ba;
    VisitorMoves(acts, u, v, x, BRead([1]));
    acts := acts + [VisitorActs(u, BRead([1]))];
    x := x.(b1 := BStep(READING, BRead([1])).0);
    VisitorMoves(acts, u, v, x, Append);
    acts := acts + [VisitorActs(u, Append)];
    b := BStep(x.b1, Append).0;
    assert x.ba + Posted(u, [Data([1])]) == [Frame(NEW_SESSION, u), Frame(NEW_SESSION, v), Frame(DATA, DataBody(u, [1]))];
  }

  lemma Begins(u: Id, v: Id)
    ensures Shows([], u, v, Scene(FRESH_B, FRESH_B, FRESH_C, FRESH_C, [], []))
  {
  }

  lemma SecondAccepts(acts: seq<Act>, u: Id, v: Id, x: Scene) returns (more: seq<Act>, y: Scene)
    requires |u| == |v| == UUID_BYTES && u != v && Shows(acts, u, v, x) && x.b2 == FRESH_B
    ensures y == x.(b2 := ANNOUNCED, ba := x.ba + [Frame(NEW_SESSION, v)]) && Shows(more, u, v, y)
  {
    hide Shows;
    y := Scene(x.b2, x.b1, x.c2, x.c1, x.ba, x.ac);
    Swapped(acts, u, v, x);
    VisitorMoves(acts, v, u, y, Accept);
    more := acts + [VisitorActs(v, Accept)];
    y := y.(b1 := BStep(FRESH_B, Accept).0);
    assert y.ba + Posted(v, []) == y.ba;
    VisitorMoves(more, v, u, y, Append);
    more := more + [VisitorActs(v, Append)];
    y := y.(b1 := ANNOUNCED, ba := y.ba + Posted(v, [New]));
    Swapped(more, v, u, y);
    y := Scene(y.b2, y.b1, y.c2, y.c1, y.ba, y.ac);
  }

  /** Both sessions are connected, and the first one's byte is the next frame the provider will handle. */
  lemma Connects(u: Id, v: Id) returns (acts: seq<Act>, b: BSess)
    requires |u| == |v| == UUID_BYTES && u != v
    ensures Shows(acts, u, v, Scene(b, ANNOUNCED, CONNECTED, CONNECTED, [], [Frame(DATA, DataBody(u, [1]))]))
  {
    hide Shows, DataBody;
    acts, b := Talks(u, v);
    var f0, f1, f2 := Frame(FORWARD_SESSION, u), Frame(FORWARD_SESSION, v), Frame(DATA, DataBody(u, [1]));
    var x := Scene(b, ANNOUNCED, FRESH_C, FRESH_C, [Frame(NEW_SESSION, u), Frame(NEW_SESSION, v), f2], []);
    MatcherForwards(acts, u, v, x);
    acts, x := acts + [Forwards], x.(ba := x.ba[1..], ac := [] + [f0]);
    MatcherForwards(acts, u, v, x);
    acts, x := acts + [Forwards], x.(ba := x.ba[1..], ac := [] + [f0] + [f1]);
    MatcherForwards(acts, u, v, x);
    acts, x := acts + [Forwards], x.(ba := x.ba[1..], ac := [] + [f0] + [f1] + [f2]);
    Announces(acts, u, v, x);
    acts, x := acts + [ProviderTakes(None)], x.(c1 := CReceive(FRESH_C, New, None), ac := x.ac[1..]);
    Dials(acts, u, v, x);
    acts, x := acts + [ProviderActs(u, DialOk)], x.(c1 := CONNECTED);
    Swapped(acts, u, v, x);
    var y := Scene(x.b2, x.b1, x.c2, x.c1, x.ba, x.ac);
    Announces(acts, v, u, y);
    acts, y := acts + [ProviderTakes(None)], y.(c1 := CReceive(FRESH_C, New, None), ac := y.ac[1..]);
    Dials(acts, v, u, y);
    acts, y := acts + [ProviderActs(v, DialOk)], y.(c1 := CONNECTED);
    Swapped(acts, v, u, y);
    assert y.ba == [] && y.ac == [f2];
  }

  /**
   Sessions are not independent of a failing remote: for any two uuids there is a run in which both sessions
   are connected, and one failed write of the first removes the second from the table and closes its remote.
   */
  lemma FailureSpreads(u: Id, v: Id) returns (acts: seq<Act>)
    requires |u| == |v| == UUID_BYTES && u != v
    ensures var s := RunAll(acts); var t := RunAll(acts + [ProviderTakes(Some(0))]);
            && COf(s, v) == CONNECTED && COf(s, u) == CONNECTED && Subject(s, ProviderTakes(Some(0))) == Some(u)
            && t.cStopped && !COf(t, v).listed && !COf(t, v).sock.open
            && Project(t, v) != Project(s, v)
  {
    var b;
    acts, b := Connects(u, v);
    hide RunAll;
    RunAllSnoc(acts, ProviderTakes(Some(0)));
    var s := RunAll(acts);
    assert ProviderReads(s.ac.frames[0]) == Some((u, Data([1])));
    OthersTouched(s, u, v);
  }

  lemma OthersTouched(s: System, u: Id, v: Id)
    requires u != v && !s.cStopped && s.ac.frames != [] && ProviderReads(s.ac.frames[0]) == Some((u, Data([1])))
    requires COf(s, u) == CONNECTED && COf(s, v) == CONNECTED
    ensures var t := Next(s, ProviderTakes(Some(0))); t.cStopped && COf(t, v) == CHalt(CONNECTED)
  {
    hide CReceive, ProviderReads;
  }
}
