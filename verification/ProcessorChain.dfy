/** `ProcessorChain` and `build_processor_chain`, proved against modules `Chain` and `Builder`. */
module ProcessorChainObject {
  import opened Octet
  import opened Options
  import opened Bytes
  import opened Sequences
  import opened Processor
  import opened Chain
  import opened ProcessorObjects
  import opened Builder
  import Padding

  ghost predicate Distinct(ps: seq<Pointer>) {
    forall i, j :: 0 <= i < j < |ps| ==> ps[i].Target() != ps[j].Target()
  }

  ghost function Targets(ps: seq<Pointer>): (objs: set<object>)
    ensures forall i :: 0 <= i < |ps| ==> ps[i].Target() in objs
  {
    set i | 0 <= i < |ps| :: ps[i].Target()
  }

  lemma TargetsGrow(ps: seq<Pointer>, p: Pointer)
    ensures Targets(ps + [p]) == Targets(ps) + {p.Target()}
  {
    forall o | o in Targets(ps) + {p.Target()} ensures o in Targets(ps + [p]) {
      if o == p.Target() {
        assert (ps + [p])[|ps|] == p;
      } else {
        var i :| 0 <= i < |ps| && ps[i].Target() == o;
        assert (ps + [p])[i] == ps[i];
      }
    }
  }

  /** The objects are valid and `view` is the list of their values. */
  ghost predicate Tracks(ps: seq<Pointer>, view: seq<Proc>)
    reads Targets(ps)
  {
    |view| == |ps| && forall i :: 0 <= i < |ps| ==> ps[i].Valid() && ps[i].View() == view[i]
  }

  lemma TracksLength(ps: seq<Pointer>, view: seq<Proc>)
    requires Tracks(ps, view)
    ensures |view| == |ps|
  {
  }

  /** The inner loop on processor `i` leaves the other processors alone. */
  method FeedLocalAt(ps: seq<Pointer>, ghost view: seq<Proc>, i: nat, cur: seq<seq<Byte>>)
    returns (next: seq<seq<Byte>>, ok: bool, ghost view': seq<Proc>)
    requires Distinct(ps) && Tracks(ps, view) && AllLive(view) && i < |ps|
    modifies ps[i].Target()
    ensures |view'| == |view| == |ps| && view[i].Live() && LocalStage(view[i], cur) == Stage(view'[i], next, ok)
    ensures Tracks(ps, view') && AllLive(view') && view' == view[..i] + [view'[i]] + view[i + 1..]
  {
    hide LocalStage;
    next, ok := FeedLocal(ps[i], cur);
    view' := view[..i] + [ps[i].View()] + view[i + 1..];
  }

  method FeedRemoteAt(ps: seq<Pointer>, ghost view: seq<Proc>, i: nat, cur: seq<seq<Byte>>)
    returns (next: seq<seq<Byte>>, ok: bool, ghost view': seq<Proc>)
    requires Distinct(ps) && Tracks(ps, view) && AllLive(view) && i < |ps|
    modifies ps[i].Target()
    ensures |view'| == |view| == |ps| && view[i].Live() && RemoteStage(view[i], cur) == Stage(view'[i], next, ok)
    ensures Tracks(ps, view') && AllLive(view') && view' == view[..i] + [view'[i]] + view[i + 1..]
  {
    hide RemoteStage;
    next, ok := FeedRemote(ps[i], cur);
    view' := view[..i] + [ps[i].View()] + view[i + 1..];
  }

  class ProcessorChain {
    var processors: seq<Pointer>
    ghost var view: seq<Proc>

    ghost predicate Valid()
      reads this, Targets(processors)
    {
      Distinct(processors) && Tracks(processors, view) && this !in Targets(processors)
    }

    /** No stage of it packs for ever. */
    ghost predicate Ready()
      reads this, Targets(processors)
    {
      Valid() && AllLive(view)
    }

    constructor ()
      ensures Valid() && processors == [] && view == []
    {
      processors, view := [], [];
    }

    method Add(p: Pointer)
      requires Valid() && p.Valid()
      requires p.Target() !in Targets(processors) && p.Target() != this
      modifies this
      ensures Valid() && processors == old(processors) + [p]
      ensures view == old(view + [p.View()])
      ensures Targets(processors) == old(Targets(processors)) + {p.Target()}
    {
      TargetsGrow(processors, p);
      processors := processors + [p];
      view := view + [p.View()];
    }

    /**
     Each processor gets all the buffers of the one before it.  With no processors the input is
     appended to `output`; otherwise `output` is replaced, or left alone by a throw.
     */
    method OnLocalData(input: seq<Byte>, output0: seq<seq<Byte>>) returns (output: seq<seq<Byte>>, ok: bool)
      requires Ready()
      modifies this`view, Targets(processors)
      ensures Ready()
      ensures var f := Forward(old(view), [input]);
              && view == f.procs && ok == f.ok
              && output == if !ok then output0 else if processors == [] then output0 + f.out else f.out
    {
      hide Forward, LocalStage, Tracks, Distinct, Pointer.View, Targets, Pack, Unpack;
      TracksLength(processors, view);
      ForwardNone([input]);
      if processors == [] {
        return output0 + [input], true;
      }
      ghost var start := view;
      ghost var total := Forward(start, [input]);
      var cur := [input];
      assert start[0..] == start;
      for i := 0 to |processors|
        invariant Ready() && |view| == |start| == |processors|
        invariant view[i..] == start[i..]
        invariant total == After(view[..i], Forward(start[i..], cur))
      {
        ghost var before := view;
        ForwardOneMore(start, before[..i], i, cur);
        assert before[i] == before[i..][0] == start[i];
        var next;
        next, ok, view := FeedLocalAt(processors, view, i, cur);
        assert before[i + 1..] == before[i..][1..] == start[i + 1..];
        assert view[..i + 1] == before[..i] + [view[i]] && view[i + 1..] == start[i + 1..];
        if !ok {
          assert view == view[..i + 1] + start[i + 1..];
          return output0, false;
        }
        cur := next;
      }
      ForwardNone(cur);
      assert start[|processors|..] == [] && view[..|processors|] + [] == view;
      output, ok := cur, true;
    }

    method OnRemoteData(input: seq<Byte>, output0: seq<seq<Byte>>) returns (output: seq<seq<Byte>>, ok: bool)
      requires Ready()
      modifies this`view, Targets(processors)
      ensures Ready()
      ensures var f := Backward(old(view), [input]);
              && view == f.procs && ok == f.ok
              && output == if !ok then output0 else if processors == [] then output0 + f.out else f.out
    {
      hide Backward, RemoteStage, Tracks, Distinct, Pointer.View, Targets, Pack, Unpack;
      TracksLength(processors, view);
      BackwardNone([input]);
      if processors == [] {
        return output0 + [input], true;
      }
      ghost var start := view;
      var cur := [input];
      var i := |processors|;
      assert start[i..] == [] && view[i..] == [];
      while i > 0
        invariant 0 <= i <= |processors| && Ready() && |view| == |start| == |processors|
        invariant view[..i] == start[..i]
        invariant Backward(start[i..], [input]) == Flow(view[i..], cur, true)
      {
        ghost var before := view;
        i := i - 1;
        BackwardFirst(start[i..], [input]);
        assert start[i..][1..] == start[i + 1..] && start[i..][0] == start[i] == before[i];
        var next;
        next, ok, view := FeedRemoteAt(processors, view, i, cur);
        assert view[i..] == [view[i]] + before[i + 1..];
        assert before[..i] == start[..i] && view[..i] == start[..i];
        if !ok {
          BackwardThrows(start, i, [input]);
          assert view == start[..i] + view[i..];
          return output0, false;
        }
        cur := next;
      }
      assert start[0..] == start && view[0..] == view;
      output, ok := cur, true;
    }

    /** A chain of built-in processors flushes nothing and is not changed by flushing. */
    method FlushLocal() returns (output: seq<seq<Byte>>, ok: bool)
      requires Ready()
      modifies this`view, Targets(processors)
      ensures Ready() && view == old(view)
      ensures output == [] && ok
    {
      hide LocalStage, Tracks;
      TracksLength(processors, view);
      var cur := [];
      ok := true;
      for i := 0 to |processors|
        invariant Ready() && cur == [] && ok
        invariant view == old(view) && |view| == |processors|
      {
        EmptyStage(view[i]);
        var next;
        ghost var before := view;
        next, ok, view := FeedLocalAt(processors, view, i, cur);
        assert view == before;
        cur := processors[i].Flush(next);
      }
      output := cur;
    }

    method FlushRemote() returns (output: seq<seq<Byte>>, ok: bool)
      requires Ready()
      modifies this`view, Targets(processors)
      ensures Ready() && view == old(view)
      ensures output == [] && ok
    {
      hide RemoteStage, Tracks;
      TracksLength(processors, view);
      var cur := [];
      ok := true;
      var i := |processors|;
      while i > 0
        invariant 0 <= i <= |processors| && Ready() && cur == [] && ok
        invariant view == old(view) && |view| == |processors|
      {
        i := i - 1;
        EmptyStage(view[i]);
        var next;
        ghost var before := view;
        next, ok, view := FeedRemoteAt(processors, view, i, cur);
        assert view == before;
        cur := processors[i].Flush(next);
      }
      output := cur;
    }
  }

  /** The result of a chain whose first processors are done. */
  ghost function After(done: seq<Proc>, rest: Flow): Flow {
    rest.(procs := done + rest.procs)
  }

  lemma ForwardOneMore(start: seq<Proc>, done: seq<Proc>, i: nat, cur: seq<seq<Byte>>)
    requires AllLive(start) && i < |start|
    ensures var s := LocalStage(start[i], cur);
            After(done, Forward(start[i..], cur)) ==
              if s.ok then After(done + [s.proc], Forward(start[i + 1..], s.out))
              else Flow(done + [s.proc] + start[i + 1..], [], false)
  {
    hide LocalStage;
    var s := LocalStage(start[i], cur);
    assert start[i..][0] == start[i] && start[i..][1..] == start[i + 1..];
    if s.ok {
      Assoc(done, [s.proc], Forward(start[i + 1..], s.out).procs);
    } else {
      Assoc(done, [s.proc], start[i + 1..]);
    }
  }

  lemma ForwardNone(bufs: seq<seq<Byte>>)
    ensures Forward([], bufs) == Flow([], bufs, true)
  {
  }

  lemma BackwardNone(bufs: seq<seq<Byte>>)
    ensures Backward([], bufs) == Flow([], bufs, true)
  {
  }

  lemma BackwardFirst(ps: seq<Proc>, bufs: seq<seq<Byte>>)
    requires AllLive(ps) && ps != [] && Backward(ps[1..], bufs).ok
    ensures var f := Backward(ps[1..], bufs); var s := RemoteStage(ps[0], f.out);
            Backward(ps, bufs) == Flow([s.proc] + f.procs, if s.ok then s.out else [], s.ok)
  {
  }

  /** Processors in front of the one that threw are not called. */
  lemma {:induction false} BackwardThrows(ps: seq<Proc>, i: nat, bufs: seq<seq<Byte>>)
    requires AllLive(ps) && i <= |ps| && !Backward(ps[i..], bufs).ok
    ensures Backward(ps, bufs) == Flow(ps[..i] + Backward(ps[i..], bufs).procs, [], false)
    decreases i
  {
    hide RemoteStage;
    if i == 0 {
      assert ps[0..] == ps;
      ThrowIsEmpty(ps, bufs);
      assert ps[..0] + Backward(ps, bufs).procs == Backward(ps, bufs).procs;
    } else {
      assert ps[1..][i - 1..] == ps[i..];
      BackwardThrows(ps[1..], i - 1, bufs);
      assert [ps[0]] + ps[1..][..i - 1] == ps[..i];
      Assoc([ps[0]], ps[1..][..i - 1], Backward(ps[i..], bufs).procs);
    }
  }

  lemma ThrowIsEmpty(ps: seq<Proc>, bufs: seq<seq<Byte>>)
    requires AllLive(ps)
    ensures !Backward(ps, bufs).ok ==> Backward(ps, bufs).out == []
  {
  }

  /** The processor of one specification, or nothing if it is refused. */
  method MakeProcessor(node: Node, spec: Spec, reverse: bool, i: nat) returns (r: Option<Pointer>)
    ensures r.Some? <==> Accepted(spec)
    ensures r.Some? ==> r.value.Valid() && fresh(r.value.Target()) && r.value.View() == ProcOf(node, spec, reverse, i)
  {
    hide FillKey;
    match spec
    case IdentitySpec =>
      var p := new IdentityProcessor();
      r := Some(IdentityAt(p));
    case CfbSpec(key) =>
      if key.None? {
        return None;
      }
      var p := new CfbProcessor(key.value, reverse);
      r := Some(CfbAt(p));
    case CfbNonceSpec(iv, hmacKey) =>
      if iv.None? || iv.value == [] || hmacKey.None? || hmacKey.value == [] {
        return None;
      }
      var p := new CfbNonceProcessor(Secrets(node.mac, node.hash, iv.value, hmacKey.value), node.nonce(i), reverse);
      r := Some(CfbNonceAt(p));
    case PaddingSpec(chunk, max) =>
      if chunk.None? || max.None? {
        return None;
      }
      if chunk.value > TWO_32 - 1 || max.value > TWO_32 - 1 {
        return None;
      }
      var p := new PaddingProcessor(Padding.Limits(chunk.value, max.value), node.tape(i), reverse);
      r := Some(PaddingAt(p));
    case UnknownSpec =>
      r := None;
  }

  /** One round of the builder's loop. */
  method AddProcessor(chain: ProcessorChain, node: Node, spec: Spec, reverse: bool, i: nat) returns (ok: bool)
    requires chain.Valid()
    modifies chain
    ensures chain.Valid() && ok == Accepted(spec)
    ensures fresh(Targets(chain.processors) - old(Targets(chain.processors)))
    ensures ok ==> chain.view == old(chain.view) + [ProcOf(node, spec, reverse, i)]
  {
    hide ProcOf, Accepted, FillKey, Distinct;
    ghost var objs := Targets(chain.processors);
    assert forall o | o in objs :: allocated(o);
    var made := MakeProcessor(node, spec, reverse, i);
    ok := made.Some?;
    if ok {
      chain.Add(made.value);
    }
  }

  /** One new object for each specification, until one is refused. */
  method FillChain(node: Node, ordered: seq<Spec>, reverse: bool) returns (r: Option<ProcessorChain>)
    ensures r.Some? <==> AllAccepted(ordered)
    ensures r.Some? ==> fresh(r.value) && r.value.Valid() && fresh(Targets(r.value.processors))
    ensures r.Some? ==> |r.value.view| == |ordered|
    ensures r.Some? ==> forall i :: 0 <= i < |ordered| ==> r.value.view[i] == ProcOf(node, ordered[i], reverse, i)
  {
    hide ProcOf, Accepted, Tracks;
    var chain := new ProcessorChain();
    for i := 0 to |ordered|
      invariant chain.Valid() && fresh(chain) && fresh(Targets(chain.processors)) && |chain.view| == i
      invariant forall k :: 0 <= k < i ==> Accepted(ordered[k]) && chain.view[k] == ProcOf(node, ordered[k], reverse, k)
    {
      var ok := AddProcessor(chain, node, ordered[i], reverse, i);
      if !ok {
        return None;
      }
    }
    r := Some(chain);
  }

  /** `build_processor_chain`. */
  method BuildProcessorChain(node: Node, specs: seq<Spec>, reverse: bool) returns (r: Option<ProcessorChain>)
    ensures r.Some? <==> Build(node, specs, reverse).Some?
    ensures r.Some? ==> fresh(r.value) && r.value.Valid() && fresh(Targets(r.value.processors))
    ensures r.Some? ==> (r.value.Ready() <==> AllFinish(specs))
    ensures r.Some? ==> r.value.view == Build(node, specs, reverse).value
  {
    hide ProcOf, Accepted, Tracks;
    BuildRefuses(node, specs, reverse);
    if AllAccepted(specs) {
      BuildLive(node, specs, reverse);
    }
    if specs == [] {
      var chain := new ProcessorChain();
      var p := new IdentityProcessor();
      chain.Add(IdentityAt(p));
      return Some(chain);
    }
    var ordered := if reverse then Reversed(specs) else specs;
    r := FillChain(node, ordered, reverse);
    assert r.Some? ==> r.value.view == Build(node, specs, reverse).value;
  }
}
