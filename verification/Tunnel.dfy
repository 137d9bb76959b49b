/**
 One tunnel session: the two read loops as coroutines on one thread, suspended at every `co_await`.
 An event resumes one of them; the code up to its next suspension is one step.
 */
module Tunnel {
  import opened Octet
  import opened Sequences
  import opened Processor
  import opened Chain
  import opened Duplex
  import Builder
  import TwoHop

  /** Which socket a loop reads. */
  datatype Side = LocalSide | RemoteSide

  /** Where a loop is suspended; `Ended` has returned, `Reported` has run its completion handler. */
  datatype Pc = Spawned | Reading | Writing(queue: seq<seq<Byte>>) | Ended | Reported

  /** A loop, its counter, the bytes it has written, and whether it shut that socket's send side. */
  datatype Loop = Loop(pc: Pc, eof: bool, count: nat, written: seq<Byte>, shut: bool)

  datatype Session = Session(
    chain: seq<Proc>,
    calls: seq<Call>,                // every chain call so far
    local: Loop,
    remote: Loop,
    closed: bool,
    doneCount: nat,
    closeLog: seq<(nat, nat)>)       // the (rx, tx) pairs of the `conn_close` records
  {
    function At(side: Side): Loop {
      if side.LocalSide? then local else remote
    }

    function Set(side: Side, loop: Loop): Session {
      if side.LocalSide? then this.(local := loop) else this.(remote := loop)
    }
  }

  datatype Event =
    | Begin
    | ReadData(input: seq<Byte>)
    | ReadEof
    | ReadAborted
    | ReadError
    | WriteDone
    | WriteFailed
    | Completed

  function Other(side: Side): Side {
    if side.LocalSide? then RemoteSide else LocalSide
  }

  /** The test at the top of the loop. */
  function Top(closed: bool): Pc {
    if closed then Ended else Reading
  }

  function CallOf(side: Side, input: seq<Byte>): Call {
    if side.LocalSide? then Local(input) else Remote(input)
  }

  function Through(side: Side, ps: seq<Proc>, input: seq<Byte>): (f: Flow)
    requires AllLive(ps)
    ensures AllLive(f.procs)
  {
    if side.LocalSide? then Forward(ps, [input]) else Backward(ps, [input])
  }

  /** A read that brought bytes: push them through the chain and start writing what comes out. */
  function OnData(s: Session, side: Side, input: seq<Byte>): (s': Session)
    requires AllLive(s.chain)
    ensures AllLive(s'.chain)
  {
    var f := Through(side, s.chain, input);
    var t := s.(chain := f.procs, calls := s.calls + [CallOf(side, input)]);
    if !f.ok then t.Set(side, t.At(side).(pc := Ended)).(closed := true)
    else t.Set(side, t.At(side).(pc := if f.out == [] then Top(s.closed) else Writing(f.out)))
  }

  /** End of file: the other socket's send side is shut, the flush is empty, and the last one closes. */
  function OnEof(s: Session, side: Side): Session {
    s.Set(side, s.At(side).(pc := Ended, eof := true, shut := true)).(closed := s.closed || s.At(Other(side)).eof)
  }

  function OnWritten(s: Session, side: Side): Session
    requires s.At(side).pc.Writing? && s.At(side).pc.queue != []
  {
    var loop := s.At(side);
    var rest := loop.pc.queue[1..];
    s.Set(side, loop.(
      pc := if rest == [] then Top(s.closed) else Writing(rest),
      count := loop.count + |loop.pc.queue[0]|,
      written := loop.written + loop.pc.queue[0]))
  }

  function OnError(s: Session, side: Side): Session {
    s.Set(side, s.At(side).(pc := Ended)).(closed := true)
  }

  function OnCompleted(s: Session, side: Side): Session {
    s.Set(side, s.At(side).(pc := Reported)).(
      doneCount := s.doneCount + 1,
      closeLog := if s.doneCount + 1 == 2 then s.closeLog + [(s.remote.count, s.local.count)] else s.closeLog)
  }

  /** One step; an event that cannot happen in the loop's state changes nothing. */
  function Step(s: Session, side: Side, event: Event): (s': Session)
    requires AllLive(s.chain)
    ensures AllLive(s'.chain)
  {
    var loop := s.At(side);
    match event
    case Begin => if loop.pc.Spawned? then s.Set(side, loop.(pc := Top(s.closed))) else s
    case ReadData(input) => if loop.pc.Reading? then OnData(s, side, input) else s
    case ReadEof => if loop.pc.Reading? then OnEof(s, side) else s
    case ReadAborted => if loop.pc.Reading? then s.Set(side, loop.(pc := Ended)) else s
    case ReadError => if loop.pc.Reading? then OnError(s, side) else s
    case WriteDone => if loop.pc.Writing? && loop.pc.queue != [] then OnWritten(s, side) else s
    case WriteFailed => if loop.pc.Writing? then OnError(s, side) else s
    case Completed => if loop.pc.Ended? then OnCompleted(s, side) else s
  }

  function Run(s: Session, events: seq<(Side, Event)>): (s': Session)
    requires AllLive(s.chain)
    ensures AllLive(s'.chain)
  {
    if events == [] then s
    else
      var n := |events| - 1;
      Step(Run(s, events[..n]), events[n].0, events[n].1)
  }

  /** `start_session`: both loops are spawned, nothing has been read. */
  function Launch(chain: seq<Proc>): Session {
    var loop := Loop(Spawned, false, 0, [], false);
    Session(chain, [], loop, loop, false, 0, [])
  }

  // ----- what has come out of the chain -----

  function Bytes(outcomes: seq<Outcome>): seq<Byte> {
    if outcomes == [] then []
    else
      var n := |outcomes| - 1;
      Bytes(outcomes[..n]) + if outcomes[n].Emitted? then Flatten(outcomes[n].out) else []
  }

  /** The bytes the chain has made for the socket that the loop on `side` writes to. */
  function Made(start: seq<Proc>, calls: seq<Call>, side: Side): seq<Byte>
    requires AllLive(start)
  {
    var t := RunCalls(start, calls);
    if side.LocalSide? then Bytes(t.local) else Bytes(t.remote)
  }

  // ----- the invariant -----

  /** What a loop has written, plus what it still has to write, is what the chain made for it. */
  ghost predicate LoopInv(s: Session, start: seq<Proc>, side: Side)
    requires AllLive(start)
  {
    var loop, made := s.At(side), Made(start, s.calls, side);
    && loop.count == |loop.written|
    && loop.written <= made
    && (loop.pc.Spawned? || loop.pc.Reading? || loop.eof ==> loop.written == made)
    && (loop.pc.Writing? ==> loop.pc.queue != [] && loop.written + Flatten(loop.pc.queue) == made)
    && (loop.eof ==> loop.pc.Ended? || loop.pc.Reported?)
    && (loop.shut <==> loop.eof)
  }

  function Reports(s: Session): nat {
    (if s.local.pc.Reported? then 1 else 0) + if s.remote.pc.Reported? then 1 else 0
  }

  ghost predicate Inv(s: Session, start: seq<Proc>)
    requires AllLive(start)
  {
    && s.chain == RunCalls(start, s.calls).procs
    && LoopInv(s, start, LocalSide) && LoopInv(s, start, RemoteSide)
    && (s.local.eof && s.remote.eof ==> s.closed)
    && s.doneCount == Reports(s)
    && s.closeLog == if s.doneCount == 2 then [(s.remote.count, s.local.count)] else []
  }

  /** A call for one side adds its buffers to that side and nothing to the other. */
  lemma MadeGrows(start: seq<Proc>, calls: seq<Call>, side: Side, input: seq<Byte>)
    requires AllLive(start)
    ensures var call := CallOf(side, input); var f := Through(side, RunCalls(start, calls).procs, input);
            && RunCalls(start, calls + [call]).procs == f.procs
            && Made(start, calls + [call], side)
                == Made(start, calls, side) + (if f.ok then Flatten(f.out) else [])
            && Made(start, calls + [call], Other(side)) == Made(start, calls, Other(side))
  {
    hide Forward, Backward;
    var call := CallOf(side, input);
    RunLast(start, calls, call);
    var t := RunCalls(start, calls);
    var outcome := OutcomeOf(Through(side, t.procs, input));
    assert (t.local + [outcome])[..|t.local|] == t.local;
    assert (t.remote + [outcome])[..|t.remote|] == t.remote;
  }

  lemma DataKeeps(s: Session, start: seq<Proc>, side: Side, input: seq<Byte>)
    requires AllLive(start) && AllLive(s.chain) && Inv(s, start) && s.At(side).pc.Reading?
    ensures Inv(OnData(s, side, input), start)
  {
    hide RunCalls, Made, Through;
    MadeGrows(start, s.calls, side, input);
  }

  lemma WrittenKeeps(s: Session, start: seq<Proc>, side: Side)
    requires AllLive(start) && Inv(s, start) && s.At(side).pc.Writing?
    ensures Inv(OnWritten(s, side), start)
  {
    hide RunCalls, Made;
    var loop := s.At(side);
    Assoc(loop.written, loop.pc.queue[0], Flatten(loop.pc.queue[1..]));
  }

  lemma StepKeeps(s: Session, start: seq<Proc>, side: Side, event: Event)
    requires AllLive(start) && AllLive(s.chain) && Inv(s, start)
    ensures Inv(Step(s, side, event), start)
  {
    hide RunCalls, Made, OnData, OnWritten;
    match event
    case ReadData(input) =>
      if s.At(side).pc.Reading? {
        DataKeeps(s, start, side, input);
      }
    case WriteDone =>
      if s.At(side).pc.Writing? {
        WrittenKeeps(s, start, side);
      }
    case _ =>
  }

  lemma {:induction false} RunKeeps(start: seq<Proc>, events: seq<(Side, Event)>)
    requires AllLive(start)
    ensures Inv(Run(Launch(start), events), start)
  {
    if events == [] {
      assert RunCalls(start, []).procs == start;
    } else {
      hide Step, Inv;
      var n := |events| - 1;
      RunKeeps(start, events[..n]);
      StepKeeps(Run(Launch(start), events[..n]), start, events[n].0, events[n].1);
    }
  }

  /** The inputs of one side, in order. */
  function Reads(calls: seq<Call>, side: Side): seq<Byte> {
    if calls == [] then []
    else
      var n := |calls| - 1;
      Reads(calls[..n], side) +
        match calls[n]
        case Local(input) => if side.LocalSide? then input else []
        case Remote(input) => if side.RemoteSide? then input else []
  }

  /**
   A graceful close loses nothing.  In every interleaving: once both sides have reached end of file
   the session is closed and both loops have returned; whenever a side has reached end of file, all
   that the chain made of its reads alone has been written out and counted, and only then shut down.
   */
  lemma {:induction false} GracefulClose(start: seq<Proc>, events: seq<(Side, Event)>)
    requires AllLive(start)
    ensures var s := Run(Launch(start), events);
            && (s.local.eof && s.remote.eof ==>
                  s.closed && s.local.pc in {Ended, Reported} && s.remote.pc in {Ended, Reported})
            && (s.local.eof ==>
                  s.local.shut && s.local.written == Bytes(RunCalls(start, OnlyLocal(s.calls)).local))
            && (s.remote.eof ==>
                  s.remote.shut && s.remote.written == Bytes(RunCalls(start, OnlyRemote(s.calls)).remote))
            && s.local.count == |s.local.written| && s.remote.count == |s.remote.written|
  {
    hide Run, RunCalls, OnlyLocal, OnlyRemote;
    RunKeeps(start, events);
    DirectionsIndependent(start, Run(Launch(start), events).calls);
  }

  /** The close record is written exactly once, when both loops have ended, with the final counts. */
  lemma CloseLoggedOnce(start: seq<Proc>, events: seq<(Side, Event)>)
    requires AllLive(start)
    ensures var s := Run(Launch(start), events);
            && s.closeLog == (if s.local.pc.Reported? && s.remote.pc.Reported? then [(s.remote.count, s.local.count)] else [])
            && (s.closeLog != [] ==> forall side, event :: Step(s, side, event) == s)
  {
    hide Run, RunCalls, Made;
    RunKeeps(start, events);
  }

  // ----- when a session is closed, and when a loop ends -----

  /** A read error, a failed write or a throwing chain call. */
  predicate Trouble(s: Session, side: Side, event: Event)
    requires AllLive(s.chain)
  {
    var pc := s.At(side).pc;
    || (event.ReadError? && pc.Reading?)
    || (event.WriteFailed? && pc.Writing?)
    || (event.ReadData? && pc.Reading? && !Through(side, s.chain, event.input).ok)
  }

  predicate Troubled(start: seq<Proc>, events: seq<(Side, Event)>)
    requires AllLive(start)
  {
    events != [] &&
    var n := |events| - 1;
    Troubled(start, events[..n]) || Trouble(Run(Launch(start), events[..n]), events[n].0, events[n].1)
  }

  /** The read of the loop on `side` was cancelled. */
  predicate Aborted(start: seq<Proc>, events: seq<(Side, Event)>, side: Side)
    requires AllLive(start)
  {
    events != [] &&
    var n := |events| - 1;
    || Aborted(start, events[..n], side)
    || (events[n] == (side, ReadAborted) && Run(Launch(start), events[..n]).At(side).pc.Reading?)
  }

  /**
   Exactly when a session is closed: if and only if both sides have reached end of file, or there has been
   a read error, a failed write or a throwing chain call.  In particular one end of file does not close it.
   */
  lemma {:induction false} ClosedExact(start: seq<Proc>, events: seq<(Side, Event)>)
    requires AllLive(start)
    ensures var s := Run(Launch(start), events);
            s.closed <==> (s.local.eof && s.remote.eof) || Troubled(start, events)
  {
    if events != [] {
      var n := |events| - 1;
      ClosedExact(start, events[..n]);
      RunKeeps(start, events[..n]);
      hide Run, Through, Made;
      ClosedStep(Run(Launch(start), events[..n]), start, events[n].0, events[n].1);
    }
  }

  lemma ClosedStep(s: Session, start: seq<Proc>, side: Side, event: Event)
    requires AllLive(start) && AllLive(s.chain) && Inv(s, start)
    ensures var t := Step(s, side, event);
            && (t.closed <==> s.closed || (t.local.eof && t.remote.eof) || Trouble(s, side, event))
            && (s.local.eof ==> t.local.eof) && (s.remote.eof ==> t.remote.eof)
  {
    hide Through, Made, RunCalls;
    if side.LocalSide? {
      match event case ReadData(_) => case _ =>
    } else {
      match event case ReadData(_) => case _ =>
    }
  }

  /**
   Exactly when a loop is over: without an end of file of its own, only if the session is closed or its
   read was cancelled; and an end of file or a cancelled read does end it.
   */
  lemma {:induction false} LoopEnds(start: seq<Proc>, events: seq<(Side, Event)>, side: Side)
    requires AllLive(start)
    ensures var s := Run(Launch(start), events); var loop := s.At(side);
            && (loop.pc.Ended? || loop.pc.Reported? ==> loop.eof || s.closed || Aborted(start, events, side))
            && (loop.eof || Aborted(start, events, side) ==> loop.pc.Ended? || loop.pc.Reported?)
  {
    if events != [] {
      var n := |events| - 1;
      LoopEnds(start, events[..n], side);
      hide Run, Through;
      LoopStep(Run(Launch(start), events[..n]), side, events[n].0, events[n].1);
    }
  }

  predicate Over(pc: Pc) {
    pc.Ended? || pc.Reported?
  }

  lemma LoopStep(s: Session, side: Side, actor: Side, event: Event)
    requires AllLive(s.chain)
    ensures var t := Step(s, actor, event); var loop, loop' := s.At(side), t.At(side);
            var aborted := actor == side && event.ReadAborted? && loop.pc.Reading?;
            && (Over(loop.pc) ==> Over(loop'.pc)) && (s.closed ==> t.closed) && (loop.eof ==> loop'.eof)
            && (Over(loop'.pc) && !Over(loop.pc) ==> loop'.eof || t.closed || aborted)
            && ((loop'.eof && !loop.eof) || aborted ==> Over(loop'.pc))
  {
    hide Through;
    if actor.LocalSide? {
      match event case ReadData(_) => case _ =>
    } else {
      match event case ReadData(_) => case _ =>
    }
  }

  /** A closed session reads no more: a loop that would go on to its next read ends instead. */
  lemma ClosedStops(s: Session, side: Side, event: Event)
    requires AllLive(s.chain) && s.closed
    ensures var t := Step(s, side, event);
            t.closed && (t.At(side).pc.Reading? ==> s.At(side).pc.Reading? && t == s)
  {
    hide Through;
    if side.LocalSide? {
      match event case ReadData(_) => case _ =>
    } else {
      match event case ReadData(_) => case _ =>
    }
  }

  lemma {:induction false} WritesSome(s: Session, side: Side, n: nat)
    requires AllLive(s.chain) && s.At(side).pc.Writing? && !s.closed && n <= |s.At(side).pc.queue|
    ensures var loop, queue := s.At(side), s.At(side).pc.queue;
            var t := Run(s, seq(n, _ => (side, WriteDone)));
            && t.chain == s.chain && t.calls == s.calls && !t.closed && t.At(Other(side)) == s.At(Other(side))
            && t.At(side).eof == loop.eof && t.At(side).written == loop.written + Flatten(queue[..n])
            && t.At(side).pc == (if n > 0 && n == |queue| then Reading else Writing(queue[n..]))
  {
    var queue, all := s.At(side).pc.queue, seq(n, _ => (side, WriteDone));
    if n == 0 {
      assert s.At(side).written + [] == s.At(side).written && queue[0..] == queue;
    } else {
      assert all[..n - 1] == seq(n - 1, _ => (side, WriteDone));
      WritesSome(s, side, n - 1);
      assert queue[..n] == queue[..n - 1] + [queue[n - 1]];
      FlattenConcat(queue[..n - 1], [queue[n - 1]]);
      FlattenOne(queue[n - 1]);
      assert queue[n - 1..][1..] == queue[n..];
      Assoc(s.At(side).written, Flatten(queue[..n - 1]), queue[n - 1]);
      hide Flatten, Run;
    }
  }

  /** The events of one read and of all the writes it leads to. */
  function Exchange(s: Session, side: Side, input: seq<Byte>): seq<(Side, Event)>
    requires AllLive(s.chain)
  {
    [(side, ReadData(input))] + seq(|Through(side, s.chain, input).out|, _ => (side, WriteDone))
  }

  /**
   A half-close leaves the other direction alone: in every run, while the session is not closed and a loop
   waits for data, what is read is passed through the chain and all of it is written, and the loop waits
   again, whether or not the other side has ended.
   */
  lemma {:induction false} StillFlows(start: seq<Proc>, events: seq<(Side, Event)>, side: Side, input: seq<Byte>)
    requires AllLive(start)
    requires var s := Run(Launch(start), events);
             !s.closed && s.At(side).pc.Reading? && Through(side, s.chain, input).ok
    ensures var s := Run(Launch(start), events); var t := Run(s, Exchange(s, side, input));
            && t.At(side).written == s.At(side).written + Flatten(Through(side, s.chain, input).out)
            && t.At(side).pc.Reading? && !t.closed && t.At(Other(side)) == s.At(Other(side))
  {
    var s := Run(Launch(start), events);
    var read, out := (side, ReadData(input)), Through(side, s.chain, input).out;
    var writes := seq(|out|, _ => (side, WriteDone));
    var u := Step(s, side, ReadData(input));
    RunOneThen(s, read, writes);
    hide Through, Run;
    if out == [] {
      assert writes == [];
      NoEvents(u);
      assert s.At(side).written + [] == s.At(side).written;
    } else {
      WritesSome(u, side, |out|);
      assert out[..|out|] == out;
    }
  }

  lemma NoEvents(s: Session)
    requires AllLive(s.chain)
    ensures Run(s, []) == s
  {
  }

  lemma {:induction false} RunOneThen(s: Session, first: (Side, Event), rest: seq<(Side, Event)>)
    requires AllLive(s.chain)
    ensures Run(s, [first] + rest) == Run(Step(s, first.0, first.1), rest)
    decreases |rest|
  {
    var all := [first] + rest;
    if rest == [] {
      assert all[..0] == [] && all == [first];
    } else {
      RunOneThen(s, first, rest[..|rest| - 1]);
      assert all[..|all| - 1] == [first] + rest[..|rest| - 1];
    }
  }

  const COPIES := [Proc(false, PlainOut, PlainIn)]

  lemma CopiesThrough(input: seq<Byte>)
    ensures AllLive(COPIES) && Through(RemoteSide, COPIES, input) == Flow(COPIES, [input], true)
  {
    PlainCopies([input]);
    var none: seq<Proc> := [];
    assert COPIES[1..] == none && [COPIES[0]] + none == COPIES;
    assert Backward(none, [input]) == Flow(none, [input], true);
  }

  /** The client has shut its side while nothing has been read from the service. */
  function HalfClosed(): seq<(Side, Event)> {
    [(LocalSide, Begin), (RemoteSide, Begin), (LocalSide, ReadEof)]
  }

  lemma HalfClosedState()
    ensures AllLive(COPIES)
    ensures var s := Run(Launch(COPIES), HalfClosed());
            && s.chain == COPIES && !s.closed
            && s.local == Loop(Ended, true, 0, [], true) && s.remote == Loop(Reading, false, 0, [], false)
  {
    CopiesThrough([]);
    var e, s0 := HalfClosed(), Launch(COPIES);
    hide Through, Run;
    RunOneThen(s0, e[0], e[1..]);
    var s1 := Step(s0, LocalSide, Begin);
    RunOneThen(s1, e[1], e[2..]);
    var s2 := Step(s1, RemoteSide, Begin);
    RunOneThen(s2, e[2], []);
    NoEvents(Step(s2, LocalSide, ReadEof));
    assert [e[0]] + e[1..] == e && [e[1]] + e[2..] == e[1..] && [e[2]] + [] == e[2..];
  }

  /**
   A response of any length comes through whole after the client's half-close; only the service's own end
   of file then closes the session.
   */
  lemma {:induction false} ResponseAfterHalfClose(response: seq<Byte>)
    ensures AllLive(COPIES)
    ensures var s := Run(Launch(COPIES), HalfClosed()); var t := Run(s, Exchange(s, RemoteSide, response));
            && s.local.eof && !s.closed
            && t.remote.written == response && t.remote.pc.Reading? && !t.closed
            && Step(t, RemoteSide, ReadEof).closed
  {
    HalfClosedState();
    CopiesThrough(response);
    hide Run, Through, HalfClosed;
    StillFlows(COPIES, HalfClosed(), RemoteSide, response);
    FlattenOne(response);
    assert [] + response == response;
  }

  // ----- from a session to the other node -----

  /*
   The local side of an entry session feeds the exit node, and the remote side of an exit session feeds the
   entry node.  Both are stated at once: `side` says which loop of which node's session it is.
   */

  function Only(calls: seq<Call>, side: Side): seq<Call> {
    if side.LocalSide? then OnlyLocal(calls) else OnlyRemote(calls)
  }

  function Outcomes(t: Trace, side: Side): seq<Outcome> {
    if side.LocalSide? then t.local else t.remote
  }

  function Feed(side: Side, input: seq<Byte>): TwoHop.Event {
    if side.LocalSide? then TwoHop.ClientData(input) else TwoHop.ServiceData(input)
  }

  function Sender(x: TwoHop.State, side: Side): seq<Proc> {
    if side.LocalSide? then x.entry else x.exit
  }

  function Receiver(x: TwoHop.State, side: Side): seq<Proc> {
    if side.LocalSide? then x.exit else x.entry
  }

  function Wire(x: TwoHop.State, side: Side): TwoHop.Lane {
    if side.LocalSide? then x.forth else x.back
  }

  /** The reads of one side of a session as events of the two-hop system. */
  function FeedEvents(calls: seq<Call>, side: Side): seq<TwoHop.Event> {
    if calls == [] then []
    else
      var n := |calls| - 1;
      FeedEvents(calls[..n], side) +
        match calls[n]
        case Local(input) => if side.LocalSide? then [Feed(side, input)] else []
        case Remote(input) => if side.RemoteSide? then [Feed(side, input)] else []
  }

  /** The two-hop system after some reads of one side is that node's chain run on those reads alone. */
  ghost predicate WireHolds(st: TwoHop.State, calls: seq<Call>, side: Side)
    requires TwoHop.Ready(st)
  {
    var x := TwoHop.Run(st, FeedEvents(calls, side));
    var t := RunCalls(Sender(st, side), Only(calls, side));
    && Sender(x, side) == t.procs && Receiver(x, side) == Receiver(st, side)
    && Wire(x, side) == TwoHop.Lane(Reads(calls, side), Bytes(Outcomes(t, side)), [])
  }

  /** One more read of that side is one more event of the system and one more call of the chain. */
  lemma OwnReadParts(st: TwoHop.State, calls: seq<Call>, side: Side, input: seq<Byte>)
    requires TwoHop.Ready(st)
    ensures var call := CallOf(side, input);
            && TwoHop.Run(st, FeedEvents(calls + [call], side)) ==
                 TwoHop.Step(TwoHop.Run(st, FeedEvents(calls, side)), Feed(side, input))
            && Only(calls + [call], side) == Only(calls, side) + [call]
            && Reads(calls + [call], side) == Reads(calls, side) + input
  {
    hide TwoHop.Step;
    var call, event, before := CallOf(side, input), Feed(side, input), FeedEvents(calls, side);
    assert (calls + [call])[..|calls|] == calls;
    assert FeedEvents(calls + [call], side) == before + [event];
    assert (before + [event])[..|before|] == before;
  }

  /** What that call adds to the chain's outcomes. */
  lemma OwnCallParts(ps: seq<Proc>, calls: seq<Call>, side: Side, input: seq<Byte>)
    requires AllLive(ps)
    ensures var t := RunCalls(ps, calls); var u := RunCalls(ps, calls + [CallOf(side, input)]);
            var f := Through(side, t.procs, input);
            u.procs == f.procs && Bytes(Outcomes(u, side)) == Bytes(Outcomes(t, side)) + (if f.ok then Flatten(f.out) else [])
  {
    hide Forward, Backward, RunCalls;
    RunLast(ps, calls, CallOf(side, input));
    var before := Outcomes(RunCalls(ps, calls), side);
    var outcome := OutcomeOf(Through(side, RunCalls(ps, calls).procs, input));
    assert (before + [outcome])[..|before|] == before;
  }

  lemma OwnReadHolds(st: TwoHop.State, calls: seq<Call>, side: Side, input: seq<Byte>)
    requires TwoHop.Ready(st) && WireHolds(st, calls, side)
    requires !TwoHop.Run(st, FeedEvents(calls + [CallOf(side, input)], side)).failed
    ensures WireHolds(st, calls + [CallOf(side, input)], side)
  {
    hide Forward, Backward, RunCalls, Bytes, Reads, Only, FeedEvents, TwoHop.Run, Outcomes;
    OwnReadParts(st, calls, side, input);
    OwnCallParts(Sender(st, side), Only(calls, side), side, input);
  }

  lemma OtherReadHolds(st: TwoHop.State, calls: seq<Call>, side: Side, input: seq<Byte>)
    requires TwoHop.Ready(st) && WireHolds(st, calls, side)
    ensures WireHolds(st, calls + [CallOf(Other(side), input)], side)
  {
    hide RunCalls, TwoHop.Run;
    var all := calls + [CallOf(Other(side), input)];
    assert all[..|calls|] == calls;
    assert FeedEvents(all, side) == FeedEvents(calls, side) && Only(all, side) == Only(calls, side);
    assert Reads(all, side) == Reads(calls, side);
  }

  lemma NoCallsHold(st: TwoHop.State, side: Side)
    requires TwoHop.Ready(st) && Wire(st, side) == TwoHop.Lane([], [], [])
    ensures WireHolds(st, [], side)
  {
    assert RunCalls(Sender(st, side), []) == Trace(Sender(st, side), [], []);
  }

  /** One more call of either side; a call of its own side must not have failed. */
  lemma CallHolds(st: TwoHop.State, calls: seq<Call>, call: Call, side: Side)
    requires TwoHop.Ready(st) && WireHolds(st, calls, side)
    requires !TwoHop.Run(st, FeedEvents(calls + [call], side)).failed
    ensures WireHolds(st, calls + [call], side)
  {
    hide WireHolds, TwoHop.Run, FeedEvents;
    if call == CallOf(side, call.input) {
      OwnReadHolds(st, calls, side, call.input);
    } else {
      OtherReadHolds(st, calls, side, call.input);
    }
  }

  lemma {:induction false} SessionWire(a: Builder.Node, b: Builder.Node, specs: seq<Builder.Spec>, calls: seq<Call>, side: Side)
    requires Builder.AllAccepted(specs) && Builder.AllFinish(specs)
    requires a.mac == b.mac && a.hash == b.hash
    ensures TwoHop.Ready(TwoHop.Start(a, b, specs)) && WireHolds(TwoHop.Start(a, b, specs), calls, side)
  {
    hide TwoHop.Run, WireHolds, Builder.Build, TwoHop.Ready, FeedEvents, Builder.AllAccepted, Builder.AllFinish, TwoHop.Delivered;
    TwoHop.TwoHopCorrect(a, b, specs, FeedEvents(calls, side));
    var st := TwoHop.Start(a, b, specs);
    if calls == [] {
      NoCallsHold(st, side);
    } else {
      var n := |calls| - 1;
      SessionWire(a, b, specs, calls[..n], side);
      assert calls[..n] + [calls[n]] == calls;
      CallHolds(st, calls[..n], calls[n], side);
    }
  }

  /** The two-hop system when the node at the other end has read all of the wire at once. */
  lemma Drained(st: TwoHop.State, calls: seq<Call>, side: Side)
    requires TwoHop.Ready(st) && WireHolds(st, calls, side)
    ensures var wire := Bytes(Outcomes(RunCalls(Sender(st, side), Only(calls, side)), side));
            var last := if side.LocalSide? then TwoHop.WireToExit(|wire|) else TwoHop.WireToEntry(|wire|);
            var y := TwoHop.Run(st, FeedEvents(calls, side) + [last]);
            var f := Through(side, Receiver(st, side), wire);
            && (!y.failed ==> f.ok && Wire(y, side) == TwoHop.Lane(Reads(calls, side), [], Flatten(f.out)))
  {
    hide Forward, Backward, RunCalls, Bytes, Reads, Only, FeedEvents, Outcomes;
    var wire := Bytes(Outcomes(RunCalls(Sender(st, side), Only(calls, side)), side));
    var sent := FeedEvents(calls, side);
    var last := if side.LocalSide? then TwoHop.WireToExit(|wire|) else TwoHop.WireToEntry(|wire|);
    assert (sent + [last])[..|sent|] == sent && wire[..|wire|] == wire && wire[|wire|..] == [];
    assert TwoHop.Run(st, sent + [last]) == TwoHop.Step(TwoHop.Run(st, sent), last);
    hide TwoHop.Run;
    NothingBefore(Flatten(Through(side, Receiver(st, side), wire).out));
  }

  lemma NothingBefore(s: seq<Byte>)
    ensures [] + s == s
  {
  }

  /** What the node at the other end gives out when it reads all of the wire at once. */
  lemma WireDecodes(a: Builder.Node, b: Builder.Node, specs: seq<Builder.Spec>, calls: seq<Call>, side: Side)
    requires Builder.AllAccepted(specs) && Builder.AllFinish(specs)
    requires a.mac == b.mac && a.hash == b.hash
    ensures var st := TwoHop.Start(a, b, specs);
            && TwoHop.Ready(st)
            && var f := Through(side, Receiver(st, side),
                  Bytes(Outcomes(RunCalls(Sender(st, side), Only(calls, side)), side)));
               f.ok && Flatten(f.out) == Reads(calls, side)
  {
    hide Through, Builder.Build, RunCalls, TwoHop.Run, WireHolds, Bytes, Reads, FeedEvents, Builder.AllAccepted, Builder.AllFinish;
    SessionWire(a, b, specs, calls, side);
    var st := TwoHop.Start(a, b, specs);
    Drained(st, calls, side);
    var wire := Bytes(Outcomes(RunCalls(Sender(st, side), Only(calls, side)), side));
    var last := if side.LocalSide? then TwoHop.WireToExit(|wire|) else TwoHop.WireToEntry(|wire|);
    TwoHop.TwoHopCorrect(a, b, specs, FeedEvents(calls, side) + [last]);
  }

  /**
   From client to service: when an entry session has seen its client's end of file, the bytes it has
   written make the `--reverse` node of the same specification give out exactly what the client sent.
   */
  lemma GracefulDelivery(a: Builder.Node, b: Builder.Node, specs: seq<Builder.Spec>, events: seq<(Side, Event)>)
    requires Builder.AllAccepted(specs) && Builder.AllFinish(specs)
    requires a.mac == b.mac && a.hash == b.hash
    ensures var st := TwoHop.Start(a, b, specs);
            && TwoHop.Ready(st)
            && var s := Run(Launch(st.entry), events);
               s.local.eof ==>
                 var f := Forward(st.exit, [s.local.written]);
                 f.ok && Flatten(f.out) == Reads(s.calls, LocalSide)
  {
    hide Forward, Backward, Builder.Build, Run, RunCalls;
    WireDecodes(a, b, specs, [], LocalSide);
    var st := TwoHop.Start(a, b, specs);
    GracefulClose(st.entry, events);
    WireDecodes(a, b, specs, Run(Launch(st.entry), events).calls, LocalSide);
  }

  /**
   From service to client: when a session of the `--reverse` node has seen the service's end of file, the
   bytes it has written make the entry node give out exactly what the service sent.
   */
  lemma GracefulReturn(a: Builder.Node, b: Builder.Node, specs: seq<Builder.Spec>, events: seq<(Side, Event)>)
    requires Builder.AllAccepted(specs) && Builder.AllFinish(specs)
    requires a.mac == b.mac && a.hash == b.hash
    ensures var st := TwoHop.Start(a, b, specs);
            && TwoHop.Ready(st)
            && var s := Run(Launch(st.exit), events);
               s.remote.eof ==>
                 var f := Backward(st.entry, [s.remote.written]);
                 f.ok && Flatten(f.out) == Reads(s.calls, RemoteSide)
  {
    hide Forward, Backward, Builder.Build, Run, RunCalls;
    WireDecodes(a, b, specs, [], RemoteSide);
    var st := TwoHop.Start(a, b, specs);
    GracefulClose(st.exit, events);
    WireDecodes(a, b, specs, Run(Launch(st.exit), events).calls, RemoteSide);
  }
}
