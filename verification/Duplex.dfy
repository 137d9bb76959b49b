/** The two directions of one chain do not disturb each other, whatever roles its processors have. */
module Duplex {
  import opened Octet
  import opened Processor
  import opened Chain

  datatype Call = Local(input: seq<Byte>) | Remote(input: seq<Byte>)

  /** What one call gave its caller: buffers, or a throw. */
  datatype Outcome = Emitted(out: seq<seq<Byte>>) | Threw

  datatype Trace = Trace(procs: seq<Proc>, local: seq<Outcome>, remote: seq<Outcome>)

  function OutcomeOf(f: Flow): Outcome {
    if f.ok then Emitted(f.out) else Threw
  }

  /** Any interleaving of calls on one chain. */
  function RunCalls(ps: seq<Proc>, calls: seq<Call>): (t: Trace)
    requires AllLive(ps)
    ensures AllLive(t.procs) && |t.procs| == |ps|
  {
    if calls == [] then Trace(ps, [], [])
    else
      OneCall(RunCalls(ps, calls[..|calls| - 1]), calls[|calls| - 1])
  }

  function OneCall(t: Trace, call: Call): (t': Trace)
    requires AllLive(t.procs)
    ensures AllLive(t'.procs) && |t'.procs| == |t.procs|
  {
    match call
    case Local(input) =>
      var f := Forward(t.procs, [input]);
      t.(procs := f.procs, local := t.local + [OutcomeOf(f)])
    case Remote(input) =>
      var f := Backward(t.procs, [input]);
      t.(procs := f.procs, remote := t.remote + [OutcomeOf(f)])
  }

  function OnlyLocal(calls: seq<Call>): seq<Call> {
    if calls == [] then []
    else
      var n := |calls| - 1;
      OnlyLocal(calls[..n]) + if calls[n].Local? then [calls[n]] else []
  }

  function OnlyRemote(calls: seq<Call>): seq<Call> {
    if calls == [] then []
    else
      var n := |calls| - 1;
      OnlyRemote(calls[..n]) + if calls[n].Remote? then [calls[n]] else []
  }

  /** Agreement on the half a processor uses for local data, or for remote data. */
  ghost predicate LocalHalf(p: Proc, q: Proc) {
    p.reverse == q.reverse && if p.reverse then p.dec == q.dec else p.enc == q.enc
  }

  ghost predicate RemoteHalf(p: Proc, q: Proc) {
    p.reverse == q.reverse && if p.reverse then p.enc == q.enc else p.dec == q.dec
  }

  ghost predicate SameLocal(ps: seq<Proc>, qs: seq<Proc>) {
    |ps| == |qs| && forall i :: 0 <= i < |ps| ==> LocalHalf(ps[i], qs[i])
  }

  ghost predicate SameRemote(ps: seq<Proc>, qs: seq<Proc>) {
    |ps| == |qs| && forall i :: 0 <= i < |ps| ==> RemoteHalf(ps[i], qs[i])
  }

  lemma LocalStageHalves(p: Proc, q: Proc, bufs: seq<seq<Byte>>)
    requires p.Live() && q.Live()
    ensures RemoteHalf(LocalStage(p, bufs).proc, p)
    ensures LocalHalf(p, q) ==> var s, t := LocalStage(p, bufs), LocalStage(q, bufs);
            s.out == t.out && s.ok == t.ok && LocalHalf(s.proc, t.proc)
  {
    hide PackList, UnpackList;
  }

  lemma RemoteStageHalves(p: Proc, q: Proc, bufs: seq<seq<Byte>>)
    requires p.Live() && q.Live()
    ensures LocalHalf(RemoteStage(p, bufs).proc, p)
    ensures RemoteHalf(p, q) ==> var s, t := RemoteStage(p, bufs), RemoteStage(q, bufs);
            s.out == t.out && s.ok == t.ok && RemoteHalf(s.proc, t.proc)
  {
    hide PackList, UnpackList;
  }

  /** A local call reads local halves only. */
  lemma {:induction false} ForwardLocal(ps: seq<Proc>, qs: seq<Proc>, bufs: seq<seq<Byte>>)
    requires AllLive(ps) && AllLive(qs) && SameLocal(ps, qs)
    ensures var f, g := Forward(ps, bufs), Forward(qs, bufs);
            f.ok == g.ok && f.out == g.out && SameLocal(f.procs, g.procs)
  {
    hide LocalStage, LocalHalf;
    if ps != [] {
      LocalStageHalves(ps[0], qs[0], bufs);
      var s := LocalStage(ps[0], bufs);
      if s.ok {
        ForwardLocal(ps[1..], qs[1..], s.out);
      }
    }
  }

  /** A local call changes local halves only. */
  lemma {:induction false} ForwardFrame(ps: seq<Proc>, bufs: seq<seq<Byte>>)
    requires AllLive(ps)
    ensures SameRemote(Forward(ps, bufs).procs, ps)
  {
    hide LocalStage;
    if ps != [] {
      LocalStageHalves(ps[0], ps[0], bufs);
      var s := LocalStage(ps[0], bufs);
      if s.ok {
        ForwardFrame(ps[1..], s.out);
      }
    }
  }

  /** A remote call reads remote halves only. */
  lemma {:induction false} BackwardRemote(ps: seq<Proc>, qs: seq<Proc>, bufs: seq<seq<Byte>>)
    requires AllLive(ps) && AllLive(qs) && SameRemote(ps, qs)
    ensures var f, g := Backward(ps, bufs), Backward(qs, bufs);
            f.ok == g.ok && f.out == g.out && SameRemote(f.procs, g.procs)
  {
    hide RemoteStage, RemoteHalf;
    if ps != [] {
      BackwardRemote(ps[1..], qs[1..], bufs);
      RemoteStageHalves(ps[0], qs[0], Backward(ps[1..], bufs).out);
    }
  }

  /** A remote call changes remote halves only. */
  lemma {:induction false} BackwardFrame(ps: seq<Proc>, bufs: seq<seq<Byte>>)
    requires AllLive(ps)
    ensures SameLocal(Backward(ps, bufs).procs, ps)
  {
    hide RemoteStage;
    if ps != [] {
      BackwardFrame(ps[1..], bufs);
      RemoteStageHalves(ps[0], ps[0], Backward(ps[1..], bufs).out);
    }
  }

  /** What one direction can observe of a trace. */
  ghost predicate AgreeLocal(t: Trace, u: Trace) {
    t.local == u.local && SameLocal(t.procs, u.procs)
  }

  ghost predicate AgreeRemote(t: Trace, u: Trace) {
    t.remote == u.remote && SameRemote(t.procs, u.procs)
  }

  lemma CallAgrees(t: Trace, u: Trace, call: Call)
    requires AllLive(t.procs) && AllLive(u.procs)
    ensures call.Local? && AgreeLocal(t, u) ==> AgreeLocal(OneCall(t, call), OneCall(u, call))
    ensures call.Remote? && AgreeLocal(t, u) ==> AgreeLocal(OneCall(t, call), u)
    ensures call.Remote? && AgreeRemote(t, u) ==> AgreeRemote(OneCall(t, call), OneCall(u, call))
    ensures call.Local? && AgreeRemote(t, u) ==> AgreeRemote(OneCall(t, call), u)
  {
    hide Forward, Backward;
    match call
    case Local(input) =>
      ForwardFrame(t.procs, [input]);
      if SameLocal(t.procs, u.procs) {
        ForwardLocal(t.procs, u.procs, [input]);
      }
    case Remote(input) =>
      BackwardFrame(t.procs, [input]);
      if SameRemote(t.procs, u.procs) {
        BackwardRemote(t.procs, u.procs, [input]);
      }
  }

  /**
   Full-duplex isolation: in every interleaving each direction sees the outcomes, and ends in the
   state, that it would have alone.
   */
  lemma {:induction false} DirectionsIndependent(ps: seq<Proc>, calls: seq<Call>)
    requires AllLive(ps)
    ensures AgreeLocal(RunCalls(ps, calls), RunCalls(ps, OnlyLocal(calls)))
    ensures AgreeRemote(RunCalls(ps, calls), RunCalls(ps, OnlyRemote(calls)))
  {
    if calls == [] {
    } else {
      hide OneCall, AgreeLocal, AgreeRemote;
      var n := |calls| - 1;
      var rest, call := calls[..n], calls[n];
      DirectionsIndependent(ps, rest);
      CallAgrees(RunCalls(ps, rest), RunCalls(ps, OnlyLocal(rest)), call);
      CallAgrees(RunCalls(ps, rest), RunCalls(ps, OnlyRemote(rest)), call);
      assert OnlyLocal(rest) + [] == OnlyLocal(rest) && OnlyRemote(rest) + [] == OnlyRemote(rest);
      RunLast(ps, OnlyLocal(rest), call);
      RunLast(ps, OnlyRemote(rest), call);
    }
  }

  lemma RunLast(ps: seq<Proc>, calls: seq<Call>, call: Call)
    requires AllLive(ps)
    ensures RunCalls(ps, calls + [call]) == OneCall(RunCalls(ps, calls), call)
  {
    assert (calls + [call])[..|calls + [call]| - 1] == calls;
  }
}
