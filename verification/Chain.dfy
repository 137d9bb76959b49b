/** A chain of processors as a value: what `ProcessorChain` computes in each direction. */
module Chain {
  import opened Octet
  import opened Sequences
  import opened Processor

  /** One processor: its role flag and its two independent halves. */
  datatype Proc = Proc(reverse: bool, enc: Encoder, dec: Decoder) {
    ghost predicate Live() {
      enc.Live()
    }
  }

  /** The chain afterwards, the buffers it emits and whether nothing was thrown. */
  datatype Flow = Flow(procs: seq<Proc>, out: seq<seq<Byte>>, ok: bool)

  ghost predicate AllLive(ps: seq<Proc>) {
    forall i :: 0 <= i < |ps| ==> ps[i].Live()
  }

  datatype Stage = Stage(proc: Proc, out: seq<seq<Byte>>, ok: bool)

  function PackStage(p: Proc, bufs: seq<seq<Byte>>): (s: Stage)
    requires p.Live()
    ensures s.proc.Live()
  {
    var (enc, out) := PackList(p.enc, bufs);
    Stage(p.(enc := enc), out, true)
  }

  function UnpackStage(p: Proc, bufs: seq<seq<Byte>>): (s: Stage)
    requires p.Live()
    ensures s.proc.Live()
  {
    var u := UnpackList(p.dec, bufs);
    Stage(p.(dec := u.next), u.out, u.ok)
  }

  /** `Processor::on_local_data` on a list of buffers. */
  function LocalStage(p: Proc, bufs: seq<seq<Byte>>): (s: Stage)
    requires p.Live()
    ensures s.proc.Live()
  {
    if p.reverse then UnpackStage(p, bufs) else PackStage(p, bufs)
  }

  /** `Processor::on_remote_data` on a list of buffers. */
  function RemoteStage(p: Proc, bufs: seq<seq<Byte>>): (s: Stage)
    requires p.Live()
    ensures s.proc.Live()
  {
    if p.reverse then PackStage(p, bufs) else UnpackStage(p, bufs)
  }

  /** `on_local_data`: first processor first; a throw leaves the later ones untouched. */
  function Forward(ps: seq<Proc>, bufs: seq<seq<Byte>>): (f: Flow)
    requires AllLive(ps)
    ensures |f.procs| == |ps| && AllLive(f.procs)
  {
    if ps == [] then Flow([], bufs, true)
    else
      var s := LocalStage(ps[0], bufs);
      if !s.ok then Flow([s.proc] + ps[1..], [], false)
      else
        var f := Forward(ps[1..], s.out);
        Flow([s.proc] + f.procs, f.out, f.ok)
  }

  /** `on_remote_data`: last processor first. */
  function Backward(ps: seq<Proc>, bufs: seq<seq<Byte>>): (f: Flow)
    requires AllLive(ps)
    ensures |f.procs| == |ps| && AllLive(f.procs)
  {
    if ps == [] then Flow([], bufs, true)
    else
      var f := Backward(ps[1..], bufs);
      if !f.ok then Flow([ps[0]] + f.procs, [], false)
      else
        var s := RemoteStage(ps[0], f.out);
        Flow([s.proc] + f.procs, if s.ok then s.out else [], s.ok)
  }

  // ----- the same chains seen in pack order -----

  ghost predicate EncodersLive(es: seq<Encoder>) {
    forall i :: 0 <= i < |es| ==> es[i].Live()
  }

  /** Encoding through all stages, the stage next to the plain text first. */
  function ChainPack(es: seq<Encoder>, bufs: seq<seq<Byte>>): (r: (seq<Encoder>, seq<seq<Byte>>))
    requires EncodersLive(es)
    ensures |r.0| == |es| && EncodersLive(r.0)
    ensures forall i :: 0 <= i < |es| ==> (r.0[i].PlainOut? <==> es[i].PlainOut?)
  {
    if es == [] then ([], bufs)
    else
      var (e, mid) := PackList(es[0], bufs);
      var (rest, out) := ChainPack(es[1..], mid);
      ([e] + rest, out)
  }

  datatype Decoded = Decoded(next: seq<Decoder>, out: seq<seq<Byte>>, ok: bool)

  /** Decoding through all stages, the stage next to the wire first. */
  function ChainUnpack(ds: seq<Decoder>, bufs: seq<seq<Byte>>): (r: Decoded)
    ensures |r.next| == |ds|
  {
    if ds == [] then Decoded([], bufs, true)
    else
      var tail := ChainUnpack(ds[1..], bufs);
      if !tail.ok then Decoded([ds[0]] + tail.next, [], false)
      else
        var u := UnpackList(ds[0], tail.out);
        Decoded([u.next] + tail.next, if u.ok then u.out else [], u.ok)
  }

  /** The chain of an entry node: specification order, pack towards the remote side. */
  function Entry(es: seq<Encoder>, ds: seq<Decoder>): (ps: seq<Proc>)
    requires |es| == |ds|
    ensures |ps| == |es|
  {
    seq(|es|, i requires 0 <= i < |es| => Proc(false, es[i], ds[i]))
  }

  /**
   The chain of a `--reverse` node: order and roles are both reversed.  Identity processors are
   built without a role and keep the forward one.
   */
  function Exit(es: seq<Encoder>, ds: seq<Decoder>): (ps: seq<Proc>)
    requires |es| == |ds|
    ensures |ps| == |es|
  {
    seq(|es|, i requires 0 <= i < |es| =>
      var j := |es| - 1 - i;
      Proc(!es[j].PlainOut?, es[j], ds[j]))
  }

  /** Identity stages face identity stages. */
  ghost predicate Aligned(es: seq<Encoder>, ds: seq<Decoder>) {
    |es| == |ds| && forall i :: 0 <= i < |es| ==> (es[i].PlainOut? <==> ds[i].PlainIn?)
  }

  lemma {:induction false} EntryLocal(es: seq<Encoder>, ds: seq<Decoder>, bufs: seq<seq<Byte>>)
    requires |es| == |ds| && EncodersLive(es)
    ensures var (es', out) := ChainPack(es, bufs);
            Forward(Entry(es, ds), bufs) == Flow(Entry(es', ds), out, true)
  {
    hide PackList, UnpackList;
    var (es', out) := ChainPack(es, bufs);
    if es == [] {
      assert Entry(es', ds) == [];
    } else {
      var (e, mid) := PackList(es[0], bufs);
      EntryLocal(es[1..], ds[1..], mid);
      assert Entry(es, ds)[1..] == Entry(es[1..], ds[1..]);
      assert Entry(es', ds) == [Proc(false, e, ds[0])] + Entry(es'[1..], ds[1..]);
    }
  }

  lemma {:induction false} EntryRemote(es: seq<Encoder>, ds: seq<Decoder>, bufs: seq<seq<Byte>>)
    requires |es| == |ds| && EncodersLive(es)
    ensures var u := ChainUnpack(ds, bufs);
            Backward(Entry(es, ds), bufs) == Flow(Entry(es, u.next), u.out, u.ok)
  {
    hide PackList, UnpackList;
    var u := ChainUnpack(ds, bufs);
    if es == [] {
      assert Entry(es, u.next) == [];
    } else {
      EntryRemote(es[1..], ds[1..], bufs);
      assert Entry(es, ds)[1..] == Entry(es[1..], ds[1..]);
      assert Entry(es, u.next) == [Proc(false, es[0], u.next[0])] + Entry(es[1..], u.next[1..]);
    }
  }

  /** The wire-side stage can be split off at the end of the list. */
  lemma {:induction false} ChainUnpackLast(ds: seq<Decoder>, d: Decoder, bufs: seq<seq<Byte>>)
    ensures var u := UnpackList(d, bufs); var r := ChainUnpack(ds + [d], bufs);
            if !u.ok then r == Decoded(ds + [u.next], [], false)
            else var q := ChainUnpack(ds, u.out); r == Decoded(q.next + [u.next], q.out, q.ok)
  {
    hide UnpackList;
    if ds == [] {
      assert (ds + [d])[1..] == [];
      assert ChainUnpack([], bufs) == Decoded([], bufs, true);
    } else {
      ChainUnpackLast(ds[1..], d, bufs);
      assert (ds + [d])[1..] == ds[1..] + [d];
      assert [ds[0]] + (ds[1..] + [UnpackList(d, bufs).next]) == ds + [UnpackList(d, bufs).next];
      var u := UnpackList(d, bufs);
      if u.ok {
        var q := ChainUnpack(ds[1..], u.out);
        Assoc([ds[0]], q.next, [u.next]);
        if q.ok {
          Assoc([UnpackList(ds[0], q.out).next], q.next, [u.next]);
        }
      }
    }
  }

  lemma {:induction false} ChainPackLast(es: seq<Encoder>, e: Encoder, bufs: seq<seq<Byte>>)
    requires EncodersLive(es) && e.Live()
    ensures var (es', mid) := ChainPack(es, bufs); var (e', out) := PackList(e, mid);
            ChainPack(es + [e], bufs) == (es' + [e'], out)
  {
    hide PackList;
    if es == [] {
      assert es + [e] == [e] && [e][1..] == [];
      var (e', out) := PackList(e, bufs);
      assert ChainPack([], out) == ([], out);
      assert [] + [e'] == [e'] + [];
    } else {
      var (f, mid) := PackList(es[0], bufs);
      assert (es + [e])[1..] == es[1..] + [e];
      ChainPackLast(es[1..], e, mid);
      Assoc([f], ChainPack(es[1..], mid).0, [PackList(e, ChainPack(es[1..], mid).1).0]);
    }
  }

  /** A `--reverse` chain starts with its wire-side stage. */
  lemma ExitShape(es: seq<Encoder>, ds: seq<Decoder>, n: nat)
    requires |es| == |ds| == n + 1
    ensures Exit(es, ds) == [Proc(!es[n].PlainOut?, es[n], ds[n])] + Exit(es[..n], ds[..n])
    ensures Exit(es, ds)[1..] == Exit(es[..n], ds[..n])
  {
    var tail := Exit(es[..n], ds[..n]);
    assert Exit(es, ds) == [Proc(!es[n].PlainOut?, es[n], ds[n])] + tail;
  }

  lemma {:induction false} ExitLocal(es: seq<Encoder>, ds: seq<Decoder>, bufs: seq<seq<Byte>>)
    requires Aligned(es, ds) && EncodersLive(es)
    ensures var u := ChainUnpack(ds, bufs);
            Forward(Exit(es, ds), bufs) == Flow(Exit(es, u.next), u.out, u.ok)
  {
    hide PackList, UnpackList;
    var u := ChainUnpack(ds, bufs);
    if es == [] {
      assert Exit(es, u.next) == [];
    } else {
      var n := |es| - 1;
      ChainUnpackLast(ds[..n], ds[n], bufs);
      assert ds[..n] + [ds[n]] == ds;
      var v := UnpackList(ds[n], bufs);
      PlainCopies(bufs);
      ExitShape(es, ds, n);
      ExitShape(es, u.next, n);
      if v.ok {
        ExitLocal(es[..n], ds[..n], v.out);
        assert u.next[..n] == ChainUnpack(ds[..n], v.out).next;
      } else {
        assert u.next[..n] == ds[..n];
      }
    }
  }

  lemma {:induction false} ExitRemote(es: seq<Encoder>, ds: seq<Decoder>, bufs: seq<seq<Byte>>)
    requires Aligned(es, ds) && EncodersLive(es)
    ensures var (es', out) := ChainPack(es, bufs);
            Backward(Exit(es, ds), bufs) == Flow(Exit(es', ds), out, true)
  {
    hide PackList, UnpackList;
    var (es', out) := ChainPack(es, bufs);
    if es == [] {
      assert Exit(es', ds) == [];
    } else {
      var n := |es| - 1;
      ChainPackLast(es[..n], es[n], bufs);
      assert es[..n] + [es[n]] == es;
      ExitRemote(es[..n], ds[..n], bufs);
      var r := ChainPack(es[..n], bufs);
      PlainCopies(r.1);
      ExitShape(es, ds, n);
      ExitShape(es', ds, n);
      assert es'[..n] == r.0;
    }
  }

  // ----- streams through a chain -----

  /** The roles of a chain never change. */
  lemma {:induction false} RolesStay(es: seq<Encoder>, ds: seq<Decoder>, out: seq<seq<Byte>>, came: seq<seq<Byte>>)
    requires Aligned(es, ds) && EncodersLive(es)
    ensures Aligned(ChainPack(es, out).0, ds)
    ensures Aligned(es, ChainUnpack(ds, came).next)
  {
    hide PackList, UnpackList;
    if es != [] {
      RolesStay(es[1..], ds[1..], PackList(es[0], out).1, came);
    }
  }

  /** What a chain of decoders makes of a byte stream delivered at once. */
  datatype Stream = Stream(next: seq<Decoder>, plain: seq<Byte>, ok: bool)

  function Decode(ds: seq<Decoder>, wire: seq<Byte>): (s: Stream)
    ensures |s.next| == |ds|
  {
    if ds == [] then Stream([], wire, true)
    else
      var tail := Decode(ds[1..], wire);
      if !tail.ok then Stream([ds[0]] + tail.next, [], false)
      else
        var u := Unpack(ds[0], tail.plain);
        Stream([u.next] + tail.next, if u.ok then Flatten(u.out) else [], u.ok)
  }

  ghost predicate AllSettled(ds: seq<Decoder>) {
    forall i :: 0 <= i < |ds| ==> ds[i].Settled()
  }

  /** Two streams that agree on everything that a run without a throw can show. */
  ghost predicate Agree(s: Stream, t: Stream) {
    s.ok == t.ok && (s.ok ==> s == t)
  }

  /** Whatever buffers the stages exchange, a chain computes the stream function `Decode`. */
  lemma {:induction false} UnpackIsDecode(ds: seq<Decoder>, bufs: seq<seq<Byte>>)
    requires AllSettled(ds)
    ensures var u := ChainUnpack(ds, bufs);
            Agree(Stream(u.next, Flatten(u.out), u.ok), Decode(ds, Flatten(bufs)))
    ensures ChainUnpack(ds, bufs).ok ==> AllSettled(ChainUnpack(ds, bufs).next)
  {
    hide Unpack, UnpackList;
    if ds != [] {
      UnpackIsDecode(ds[1..], bufs);
      var tail := ChainUnpack(ds[1..], bufs);
      if tail.ok {
        UnpackListFlat(ds[0], tail.out);
      }
    }
  }

  /** Fragmentation independence of a whole chain: the wire may be cut anywhere. */
  lemma {:induction false} DecodeSplit(ds: seq<Decoder>, a: seq<Byte>, b: seq<Byte>)
    ensures var s := Decode(ds, a); var t := Decode(s.next, b); var w := Decode(ds, a + b);
            if s.ok then Agree(w, Stream(t.next, s.plain + t.plain, t.ok)) else !w.ok
  {
    hide Unpack;
    if ds != [] {
      var s := Decode(ds, a);
      DecodeSplit(ds[1..], a, b);
      var s', t' := Decode(ds[1..], a), Decode(Decode(ds[1..], a).next, b);
      UnpackSplit(ds[0], s'.plain, t'.plain);
      if s.ok {
        assert s.next[1..] == s'.next;
        FlattenConcat(Unpack(ds[0], s'.plain).out, Unpack(s.next[0], t'.plain).out);
      }
    }
  }

  lemma {:induction false} DecodeNothing(ds: seq<Decoder>)
    requires AllSettled(ds)
    ensures Decode(ds, []) == Stream(ds, [], true)
  {
    hide Unpack;
    if ds != [] {
      DecodeNothing(ds[1..]);
      UnpackNothing(ds[0]);
    }
  }

  ghost predicate ChainPaired(es: seq<Encoder>, ds: seq<Decoder>) {
    |es| == |ds| && forall i :: 0 <= i < |es| ==> Paired(es[i], ds[i])
  }

  /** Decoding undoes encoding through any list of stages, and the chains meet again. */
  lemma {:induction false} PackDecode(es: seq<Encoder>, ds: seq<Decoder>, bufs: seq<seq<Byte>>)
    requires EncodersLive(es) && ChainPaired(es, ds)
    ensures var (es', out) := ChainPack(es, bufs); var s := Decode(ds, Flatten(out));
            s.ok && s.plain == Flatten(bufs) && ChainPaired(es', s.next)
  {
    hide Unpack, PackList, Paired;
    if es != [] {
      var mid := PackList(es[0], bufs).1;
      PackListUnpack(es[0], ds[0], bufs);
      PackDecode(es[1..], ds[1..], mid);
    }
  }
}
