/** `build_processor_chain` on parsed specifications. */
module Builder {
  import opened Octet
  import opened Options
  import opened Bytes
  import opened Processor
  import opened Chain
  import Cipher
  import Padding

  /** One `--processor` argument after parsing: a name and the values given for its keys. */
  datatype Spec =
    | IdentitySpec
    | CfbSpec(key: Option<seq<Byte>>)
    | CfbNonceSpec(iv: Option<seq<Byte>>, hmacKey: Option<seq<Byte>>)
    | PaddingSpec(chunk: Option<nat>, max: Option<nat>)
    | UnknownSpec

  /** The library functions and the random choices of one node. */
  datatype Node = Node(mac: Mac, hash: Hash, nonce: nat -> Nonce, tape: nat -> Padding.Tape)

  /** The constructor of `CfbProcessor`: short keys are filled up with their own indices. */
  function FillKey(key: seq<Byte>): (iv: seq<Byte>)
    ensures |iv| == if |key| < 8 then 8 else |key|
    ensures key <= iv
    ensures forall i :: |key| <= i < |iv| ==> iv[i] == i as Byte
    decreases 8 - |key|
  {
    if |key| >= 8 then key else FillKey(key + [|key| as Byte])
  }

  /** Whether the builder makes a processor from this specification. */
  predicate Accepted(spec: Spec) {
    match spec
    case IdentitySpec => true
    case CfbSpec(key) => key.Some?
    case CfbNonceSpec(iv, hmacKey) => iv.Some? && iv.value != [] && hmacKey.Some? && hmacKey.value != []
    case PaddingSpec(chunk, max) => chunk.Some? && max.Some? && chunk.value < TWO_32 && max.value < TWO_32
    case UnknownSpec => false
  }

  /** A padding stage with `chunk=0` is accepted by the builder but never finishes packing. */
  predicate Finishes(spec: Spec) {
    spec.PaddingSpec? && spec.chunk.Some? ==> spec.chunk.value >= 1
  }

  predicate AllAccepted(specs: seq<Spec>) {
    forall i :: 0 <= i < |specs| ==> Accepted(specs[i])
  }

  predicate AllFinish(specs: seq<Spec>) {
    forall i :: 0 <= i < |specs| ==> Finishes(specs[i])
  }

  /** The pack half of a new processor; `i` says whose random choices it uses. */
  function EncoderOf(node: Node, spec: Spec, i: nat): (e: Encoder)
    requires Accepted(spec)
    ensures Finishes(spec) ==> e.Live()
  {
    match spec
    case IdentitySpec => PlainOut
    case CfbSpec(key) => CipherOut(Cipher.RawState.State(FillKey(key.value), 0))
    case CfbNonceSpec(iv, hmacKey) =>
      GreetOut(Secrets(node.mac, node.hash, iv.value, hmacKey.value), node.nonce(i))
    case PaddingSpec(chunk, max) => FrameOut(Padding.Limits(chunk.value, max.value), node.tape(i), 0)
  }

  function DecoderOf(node: Node, spec: Spec): (d: Decoder)
    requires Accepted(spec)
    ensures d.Settled()
  {
    match spec
    case IdentitySpec => PlainIn
    case CfbSpec(key) => CipherIn(Cipher.RawState.State(FillKey(key.value), 0))
    case CfbNonceSpec(iv, hmacKey) => GreetIn(Secrets(node.mac, node.hash, iv.value, hmacKey.value), [])
    case PaddingSpec(chunk, max) => FrameIn(Padding.Limits(chunk.value, max.value), [])
  }

  /** A processor; the identity constructor is called without a role. */
  function ProcOf(node: Node, spec: Spec, reverse: bool, i: nat): Proc
    requires Accepted(spec)
  {
    Proc(reverse && !spec.IdentitySpec?, EncoderOf(node, spec, i), DecoderOf(node, spec))
  }

  function Reversed(specs: seq<Spec>): (r: seq<Spec>)
    ensures |r| == |specs|
  {
    seq(|specs|, i requires 0 <= i < |specs| => specs[|specs| - 1 - i])
  }

  /** The chain of one connection, or nothing if a specification is refused. */
  function Build(node: Node, specs: seq<Spec>, reverse: bool): Option<seq<Proc>> {
    if specs == [] then Some([Proc(false, PlainOut, PlainIn)])
    else
      var ordered := if reverse then Reversed(specs) else specs;
      if !AllAccepted(ordered) then None
      else Some(seq(|ordered|, i requires 0 <= i < |ordered| => ProcOf(node, ordered[i], reverse, i)))
  }

  // ----- both nodes of a two-hop tunnel -----

  /** The specifications in force: none at all means one identity stage. */
  function InForce(specs: seq<Spec>): seq<Spec> {
    if specs == [] then [IdentitySpec] else specs
  }

  function Encoders(node: Node, specs: seq<Spec>, reverse: bool): (es: seq<Encoder>)
    requires AllAccepted(specs)
    ensures |es| == |specs|
  {
    seq(|specs|, i requires 0 <= i < |specs| =>
      EncoderOf(node, specs[i], if reverse then |specs| - 1 - i else i))
  }

  function Decoders(node: Node, specs: seq<Spec>): (ds: seq<Decoder>)
    requires AllAccepted(specs)
    ensures |ds| == |specs|
  {
    seq(|specs|, i requires 0 <= i < |specs| => DecoderOf(node, specs[i]))
  }

  /** The builder refuses a list exactly when it refuses one of its members, in either order. */
  lemma BuildRefuses(node: Node, specs: seq<Spec>, reverse: bool)
    ensures Build(node, specs, reverse).Some? <==> AllAccepted(specs)
  {
    var n := |specs|;
    forall i | 0 <= i < n ensures specs[i] == Reversed(specs)[n - 1 - i] {
    }
    if AllAccepted(Reversed(specs)) {
      forall i | 0 <= i < n ensures Accepted(specs[i]) {
        assert Accepted(Reversed(specs)[n - 1 - i]);
      }
    }
  }

  lemma OneAccepted(spec: Spec)
    ensures AllAccepted([spec]) <==> Accepted(spec)
  {
    assert [spec][0] == spec;
  }

  /** What one specification becomes, on either node: its exact conditions and the values it passes on. */
  lemma SingleSpec(node: Node, spec: Spec, reverse: bool)
    ensures var r := Build(node, [spec], reverse);
            match spec
            case UnknownSpec => r == None
            case IdentitySpec => r == Some([Proc(false, PlainOut, PlainIn)])
            case CfbSpec(key) =>
              if key.None? then r == None
              else
                var start: Cipher.State := Cipher.RawState.State(FillKey(key.value), 0);
                r == Some([Proc(reverse, CipherOut(start), CipherIn(start))])
            case CfbNonceSpec(iv, hmacKey) =>
              if iv.None? || iv.value == [] || hmacKey.None? || hmacKey.value == [] then r == None
              else
                var secrets := Secrets(node.mac, node.hash, iv.value, hmacKey.value);
                r == Some([Proc(reverse, GreetOut(secrets, node.nonce(0)), GreetIn(secrets, []))])
            case PaddingSpec(chunk, max) =>
              if chunk.None? || max.None? || chunk.value > 4294967295 || max.value > 4294967295 then r == None
              else
                var limits := Padding.Limits(chunk.value, max.value);
                r == Some([Proc(reverse, FrameOut(limits, node.tape(0), 0), FrameIn(limits, []))])
  {
    hide FillKey;
    var ordered := if reverse then Reversed([spec]) else [spec];
    assert ordered == [spec] && ordered[0] == spec;
    OneAccepted(spec);
    if Accepted(spec) {
      assert Build(node, [spec], reverse).value == [ProcOf(node, spec, reverse, 0)];
    }
  }

  /** In a longer list each specification becomes what it becomes alone, at its place in the node's order. */
  lemma EachSpec(node: Node, specs: seq<Spec>, reverse: bool, i: nat)
    requires Build(node, specs, reverse).Some? && i < |specs|
    ensures var ps := Build(node, specs, reverse).value;
            var spec := specs[if reverse then |specs| - 1 - i else i];
            && |ps| == |specs| && Accepted(spec) && ps[i] == ProcOf(node, spec, reverse, i)
  {
    hide FillKey, EncoderOf, DecoderOf, Accepted;
    var ordered := if reverse then Reversed(specs) else specs;
    assert Accepted(ordered[i]);
  }

  lemma StageLive(node: Node, spec: Spec, reverse: bool, i: nat)
    requires Accepted(spec)
    ensures ProcOf(node, spec, reverse, i).Live() <==> Finishes(spec)
  {
  }

  /** A chain can always finish packing exactly if no padding stage was given `chunk=0`. */
  lemma BuildLive(node: Node, specs: seq<Spec>, reverse: bool)
    requires Build(node, specs, reverse).Some?
    ensures AllLive(Build(node, specs, reverse).value) <==> AllFinish(specs)
  {
    hide FillKey;
    if specs != [] {
      var n, ps := |specs|, Build(node, specs, reverse).value;
      var ordered := if reverse then Reversed(specs) else specs;
      forall i | 0 <= i < n ensures ps[i].Live() <==> Finishes(ordered[i]) {
        StageLive(node, ordered[i], reverse, i);
        assert ps[i] == ProcOf(node, ordered[i], reverse, i);
      }
      forall i | 0 <= i < n ensures specs[i] == ordered[if reverse then n - 1 - i else i] {
      }
    }
  }

  /** What the builder makes are the two shapes of chain that undo each other. */
  lemma BuildShape(node: Node, specs: seq<Spec>)
    requires AllAccepted(specs)
    ensures var s := InForce(specs);
            && AllAccepted(s)
            && Build(node, specs, false) == Some(Entry(Encoders(node, s, false), Decoders(node, s)))
            && Build(node, specs, true) == Some(Exit(Encoders(node, s, true), Decoders(node, s)))
  {
    BuildRefuses(node, specs, true);
    if specs == [] {
      var s := InForce(specs);
      assert Entry(Encoders(node, s, false), Decoders(node, s)) == [Proc(false, PlainOut, PlainIn)];
      assert Exit(Encoders(node, s, true), Decoders(node, s)) == [Proc(false, PlainOut, PlainIn)];
    } else {
      BuiltEntry(node, specs);
      BuiltExit(node, specs);
    }
  }

  lemma BuiltEntry(node: Node, specs: seq<Spec>)
    requires AllAccepted(specs) && specs != []
    ensures Build(node, specs, false) == Some(Entry(Encoders(node, specs, false), Decoders(node, specs)))
  {
    hide EncoderOf, DecoderOf;
    var built, shape := Build(node, specs, false).value, Entry(Encoders(node, specs, false), Decoders(node, specs));
    forall i | 0 <= i < |specs| ensures built[i] == shape[i] {
      assert built[i] == ProcOf(node, specs[i], false, i);
    }
    assert built == shape;
  }

  lemma BuiltExit(node: Node, specs: seq<Spec>)
    requires AllAccepted(specs) && specs != [] && AllAccepted(Reversed(specs))
    ensures Build(node, specs, true) == Some(Exit(Encoders(node, specs, true), Decoders(node, specs)))
  {
    hide EncoderOf, DecoderOf;
    var n := |specs|;
    var es, ds := Encoders(node, specs, true), Decoders(node, specs);
    var built, shape := Build(node, specs, true).value, Exit(es, ds);
    forall i | 0 <= i < n ensures built[i] == shape[i] {
      var j := n - 1 - i;
      assert Reversed(specs)[i] == specs[j];
      assert built[i] == ProcOf(node, specs[j], true, i);
      assert es[j] == EncoderOf(node, specs[j], i);
      RoleOf(node, specs[j], i);
    }
    assert built == shape;
  }

  lemma RoleOf(node: Node, spec: Spec, i: nat)
    requires Accepted(spec)
    ensures EncoderOf(node, spec, i).PlainOut? <==> spec.IdentitySpec?
    ensures DecoderOf(node, spec).PlainIn? <==> spec.IdentitySpec?
  {
  }

  lemma StagePairs(a: Node, b: Node, spec: Spec, i: nat)
    requires Accepted(spec) && a.mac == b.mac && a.hash == b.hash
    ensures Paired(EncoderOf(a, spec, i), DecoderOf(b, spec))
  {
  }

  /** Two nodes given the same specifications start with their halves paired across the wire. */
  lemma BuildPairs(a: Node, b: Node, specs: seq<Spec>, reverse: bool)
    requires AllAccepted(specs) && AllFinish(specs)
    requires a.mac == b.mac && a.hash == b.hash
    ensures var es, ds := Encoders(a, specs, reverse), Decoders(b, specs);
            EncodersLive(es) && ChainPaired(es, ds) && Aligned(es, ds) && AllSettled(ds)
  {
    hide EncoderOf, DecoderOf, Paired;
    var es, ds := Encoders(a, specs, reverse), Decoders(b, specs);
    forall i | 0 <= i < |specs|
      ensures es[i].Live() && ds[i].Settled() && Paired(es[i], ds[i])
      ensures es[i].PlainOut? <==> ds[i].PlainIn?
    {
      var k := if reverse then |specs| - 1 - i else i;
      StagePairs(a, b, specs[i], k);
      RoleOf(a, specs[i], k);
      RoleOf(b, specs[i], k);
    }
  }
}
