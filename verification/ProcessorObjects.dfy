/** The processor classes, each proved against its two halves in module `Processor`. */
module ProcessorObjects {
  import opened Octet
  import opened Bytes
  import opened Sequences
  import opened Processor
  import opened Chain
  import Cipher
  import Padding
  import Builder

  class IdentityProcessor {
    const reverse: bool

    constructor ()
      ensures View() == Proc(false, PlainOut, PlainIn)
    {
      reverse := false;
    }

    ghost function View(): Proc {
      Proc(reverse, PlainOut, PlainIn)
    }

    method Copy(input: seq<Byte>, output0: seq<seq<Byte>>) returns (output: seq<seq<Byte>>)
      ensures output == output0 + Pack(PlainOut, input).1
      ensures output == output0 + Unpack(PlainIn, input).out
    {
      output := output0 + [input];
    }
  }

  class CfbProcessor {
    const reverse: bool
    var packIv: seq<Byte>
    var unpackIv: seq<Byte>
    var packOffset: nat
    var unpackOffset: nat

    ghost predicate Valid()
      reads this
    {
      0 < |packIv| && 0 < |unpackIv| && packOffset < TWO_64 && unpackOffset < TWO_64
    }

    ghost function View(): Proc
      requires Valid()
      reads this
    {
      Proc(reverse, CipherOut(Cipher.RawState.State(packIv, packOffset)), CipherIn(Cipher.RawState.State(unpackIv, unpackOffset)))
    }

    constructor (key: seq<Byte>, reverse: bool)
      ensures Valid()
      ensures View() == Proc(reverse, CipherOut(Cipher.RawState.State(Builder.FillKey(key), 0)),
                                      CipherIn(Cipher.RawState.State(Builder.FillKey(key), 0)))
    {
      this.reverse := reverse;
      packIv, unpackIv, packOffset, unpackOffset := key, key, 0, 0;
      new;
      while |packIv| < 8
        invariant packIv == unpackIv && packOffset == unpackOffset == 0
        invariant Builder.FillKey(packIv) == Builder.FillKey(key)
      {
        packIv := packIv + [|packIv| as Byte];
        unpackIv := unpackIv + [|unpackIv| as Byte];
      }
    }

    method PackInto(input: seq<Byte>, output0: seq<seq<Byte>>) returns (output: seq<seq<Byte>>)
      requires Valid()
      modifies this`packIv, this`packOffset
      ensures Valid()
      ensures var (enc, out) := Pack(old(View()).enc, input);
              View() == old(View()).(enc := enc) && output == output0 + out
    {
      hide Cipher.Encrypt;
      var buf;
      buf, packIv, packOffset := Cipher.EncryptBuffer(input, packIv, packOffset);
      output := output0 + [buf];
    }

    method UnpackInto(input: seq<Byte>, output0: seq<seq<Byte>>) returns (output: seq<seq<Byte>>)
      requires Valid()
      modifies this`unpackIv, this`unpackOffset
      ensures Valid()
      ensures var u := Unpack(old(View()).dec, input);
              View() == old(View()).(dec := u.next) && output == output0 + u.out && u.ok
    {
      hide Cipher.Decrypt;
      var buf;
      buf, unpackIv, unpackOffset := Cipher.DecryptBuffer(input, unpackIv, unpackOffset);
      output := output0 + [buf];
    }
  }

  class CfbNonceProcessor {
    const reverse: bool
    const secrets: Secrets
    const nonce: Nonce          // what `RAND_bytes` will return
    var packIv: seq<Byte>
    var unpackIv: seq<Byte>
    var packOffset: nat
    var unpackOffset: nat
    var packReady: bool
    var unpackReady: bool
    var handshakeBuffer: seq<Byte>

    ghost predicate Valid()
      reads this
    {
      && packOffset < TWO_64 && unpackOffset < TWO_64
      && (packReady ==> 0 < |packIv|) && (!packReady ==> packOffset == 0)
      && (unpackReady ==> 0 < |unpackIv|) && (!unpackReady ==> unpackOffset == 0)
    }

    ghost function View(): Proc
      requires Valid()
      reads this
    {
      Proc(reverse,
        if packReady then CipherOut(Cipher.RawState.State(packIv, packOffset)) else GreetOut(secrets, nonce),
        if unpackReady then CipherIn(Cipher.RawState.State(unpackIv, unpackOffset)) else GreetIn(secrets, handshakeBuffer))
    }

    constructor (secrets: Secrets, nonce: Nonce, reverse: bool)
      ensures Valid() && View() == Proc(reverse, GreetOut(secrets, nonce), GreetIn(secrets, []))
    {
      this.reverse, this.secrets, this.nonce := reverse, secrets, nonce;
      packIv, unpackIv, handshakeBuffer := [], [], [];
      packOffset, unpackOffset := 0, 0;
      packReady, unpackReady := false, false;
    }

    method PackInto(input: seq<Byte>, output0: seq<seq<Byte>>) returns (output: seq<seq<Byte>>)
      requires Valid()
      modifies this`packIv, this`packOffset, this`packReady
      ensures Valid()
      ensures var (enc, out) := Pack(old(View()).enc, input);
              View() == old(View()).(enc := enc) && output == output0 + out
    {
      hide Cipher.Encrypt;
      output := output0;
      if !packReady {
        output := InitPack(output);
      }
      var buf;
      buf, packIv, packOffset := Cipher.EncryptBuffer(input, packIv, packOffset);
      output := output + [buf];
    }

    method InitPack(output0: seq<seq<Byte>>) returns (output: seq<seq<Byte>>)
      requires Valid() && !packReady
      modifies this`packIv, this`packReady
      ensures Valid() && packReady && packIv == secrets.Start(nonce).iv
      ensures output == output0 + [Handshake(secrets, nonce)]
    {
      var tag := secrets.mac(secrets.hmacKey, nonce);
      output := output0 + [tag + nonce];
      packIv := secrets.hash(nonce + secrets.baseIv);
      packReady := true;
    }

    /** A throw leaves the bytes seen so far in the handshake buffer. */
    method UnpackInto(input: seq<Byte>, output0: seq<seq<Byte>>) returns (output: seq<seq<Byte>>, ok: bool)
      requires Valid()
      modifies this`unpackIv, this`unpackOffset, this`unpackReady, this`handshakeBuffer
      ensures Valid()
      ensures var u := Unpack(old(View()).dec, input);
              View() == old(View()).(dec := u.next) && output == output0 + u.out && ok == u.ok
    {
      hide Cipher.Decrypt;
      output, ok := output0, true;
      var buf;
      if !unpackReady {
        handshakeBuffer := handshakeBuffer + input;
        if |handshakeBuffer| < HANDSHAKE_PACKET_SIZE {
          return;
        }
        ok := InitUnpack(handshakeBuffer[..HANDSHAKE_PACKET_SIZE]);
        if !ok {
          return;
        }
        buf, unpackIv, unpackOffset :=
          Cipher.DecryptBuffer(handshakeBuffer[HANDSHAKE_PACKET_SIZE..], unpackIv, unpackOffset);
        output := output + [buf];
        handshakeBuffer := [];
        return;
      }
      buf, unpackIv, unpackOffset := Cipher.DecryptBuffer(input, unpackIv, unpackOffset);
      output := output + [buf];
    }

    method InitUnpack(packet: seq<Byte>) returns (ok: bool)
      requires Valid() && !unpackReady && |packet| == HANDSHAKE_PACKET_SIZE
      requires |handshakeBuffer| >= HANDSHAKE_PACKET_SIZE && packet == handshakeBuffer[..HANDSHAKE_PACKET_SIZE]
      modifies this`unpackIv, this`unpackReady
      ensures Valid() && ok == unpackReady == Genuine(secrets, handshakeBuffer)
      ensures ok ==> unpackIv == secrets.Start(handshakeBuffer[TAG_SIZE..HANDSHAKE_PACKET_SIZE]).iv
    {
      var expected, sent := packet[..TAG_SIZE], packet[TAG_SIZE..];
      assert expected == handshakeBuffer[..TAG_SIZE];
      assert sent == handshakeBuffer[TAG_SIZE..HANDSHAKE_PACKET_SIZE];
      var actual := secrets.mac(secrets.hmacKey, sent);
      if expected != actual {
        return false;
      }
      unpackIv := secrets.hash(sent + secrets.baseIv);
      unpackReady := true;
      ok := true;
    }
  }

  class PaddingProcessor {
    const reverse: bool
    const limits: Padding.Limits
    const tape: Padding.Tape
    var rng: nat
    var unpackBuffer: seq<Byte>

    ghost predicate Valid() {
      limits.Bounded()
    }

    ghost function View(): Proc
      reads this
    {
      Proc(reverse, FrameOut(limits, tape, rng), FrameIn(limits, unpackBuffer))
    }

    constructor (limits: Padding.Limits, tape: Padding.Tape, reverse: bool)
      requires limits.Bounded()
      ensures Valid() && View() == Proc(reverse, FrameOut(limits, tape, 0), FrameIn(limits, []))
    {
      this.reverse, this.limits, this.tape := reverse, limits, tape;
      rng, unpackBuffer := 0, [];
    }

    method PackInto(input: seq<Byte>, output0: seq<seq<Byte>>) returns (output: seq<seq<Byte>>)
      requires Valid() && View().Live()
      modifies this`rng
      ensures var (enc, out) := Pack(old(View()).enc, input);
              View() == old(View()).(enc := enc) && output == output0 + out
    {
      hide Padding.PackFrames;
      rng, output := Padding.ApplyPack(limits, tape, rng, input, output0);
    }

    /** The consumed frames are erased from the buffer only if no header was refused. */
    method UnpackInto(input: seq<Byte>, output0: seq<seq<Byte>>) returns (output: seq<seq<Byte>>, ok: bool)
      requires Valid()
      modifies this`unpackBuffer
      ensures var u := Unpack(old(View()).dec, input);
              View() == old(View()).(dec := u.next) && output == output0 + u.out && ok == u.ok
    {
      hide Padding.Parse;
      unpackBuffer := unpackBuffer + input;
      var pos;
      output, pos, ok := Padding.ParseLoop(limits, unpackBuffer, output0);
      if ok && pos > 0 {
        unpackBuffer := unpackBuffer[pos..];
      }
    }
  }

  /** A `unique_ptr<Processor>`: one object of one of the four classes. */
  datatype Pointer =
    | IdentityAt(identity: IdentityProcessor)
    | CfbAt(cfb: CfbProcessor)
    | CfbNonceAt(cfbNonce: CfbNonceProcessor)
    | PaddingAt(padding: PaddingProcessor)
  {
    ghost function Target(): object {
      match this
      case IdentityAt(p) => p
      case CfbAt(p) => p
      case CfbNonceAt(p) => p
      case PaddingAt(p) => p
    }

    ghost predicate Valid()
      reads Target()
    {
      match this
      case IdentityAt(p) => true
      case CfbAt(p) => p.Valid()
      case CfbNonceAt(p) => p.Valid()
      case PaddingAt(p) => p.Valid()
    }

    ghost function View(): Proc
      requires Valid()
      reads Target()
    {
      match this
      case IdentityAt(p) => p.View()
      case CfbAt(p) => p.View()
      case CfbNonceAt(p) => p.View()
      case PaddingAt(p) => p.View()
    }

    /** It is not a padding stage with `chunk=0`, so packing ends. */
    ghost predicate Ready()
      reads Target()
    {
      Valid() && View().Live()
    }

    predicate Reverse() {
      match this
      case IdentityAt(p) => p.reverse
      case CfbAt(p) => p.reverse
      case CfbNonceAt(p) => p.reverse
      case PaddingAt(p) => p.reverse
    }

    method PackInto(input: seq<Byte>, output0: seq<seq<Byte>>) returns (output: seq<seq<Byte>>)
      requires Ready()
      modifies Target()
      ensures Ready()
      ensures var (enc, out) := Pack(old(View()).enc, input);
              View() == old(View()).(enc := enc) && output == output0 + out
    {
      hide Pack, Unpack;
      match this
      case IdentityAt(p) =>
        output := p.Copy(input, output0);
        PlainHalves(input);
      case CfbAt(p) => output := p.PackInto(input, output0);
      case CfbNonceAt(p) => output := p.PackInto(input, output0);
      case PaddingAt(p) => output := p.PackInto(input, output0);
    }

    method UnpackInto(input: seq<Byte>, output0: seq<seq<Byte>>) returns (output: seq<seq<Byte>>, ok: bool)
      requires Valid()
      modifies Target()
      ensures Valid() && (old(View().Live()) ==> View().Live())
      ensures var u := Unpack(old(View()).dec, input);
              View() == old(View()).(dec := u.next) && output == output0 + u.out && ok == u.ok
    {
      hide Pack, Unpack;
      ok := true;
      match this
      case IdentityAt(p) =>
        output := p.Copy(input, output0);
        PlainHalves(input);
      case CfbAt(p) => output := p.UnpackInto(input, output0);
      case CfbNonceAt(p) => output, ok := p.UnpackInto(input, output0);
      case PaddingAt(p) => output, ok := p.UnpackInto(input, output0);
    }

    /** `on_local_data`: a reversed processor unpacks. */
    method OnLocalData(input: seq<Byte>, output0: seq<seq<Byte>>) returns (output: seq<seq<Byte>>, ok: bool)
      requires Ready()
      modifies Target()
      ensures Ready()
      ensures var s := LocalCall(old(View()), input);
              View() == s.proc && output == output0 + s.out && ok == s.ok
    {
      hide Pack, Unpack;
      ok := true;
      if Reverse() {
        output, ok := UnpackInto(input, output0);
      } else {
        output := PackInto(input, output0);
      }
    }

    /** `on_remote_data`: a reversed processor packs. */
    method OnRemoteData(input: seq<Byte>, output0: seq<seq<Byte>>) returns (output: seq<seq<Byte>>, ok: bool)
      requires Ready()
      modifies Target()
      ensures Ready()
      ensures var s := RemoteCall(old(View()), input);
              View() == s.proc && output == output0 + s.out && ok == s.ok
    {
      hide Pack, Unpack;
      ok := true;
      if Reverse() {
        output := PackInto(input, output0);
      } else {
        output, ok := UnpackInto(input, output0);
      }
    }

    /** No built-in processor overrides `flush_local` or `flush_remote`. */
    method Flush(output0: seq<seq<Byte>>) returns (output: seq<seq<Byte>>)
      ensures output == output0
    {
      output := output0;
    }
  }

  lemma PlainHalves(input: seq<Byte>)
    ensures Pack(PlainOut, input) == (PlainOut, [input])
    ensures Unpack(PlainIn, input) == Unpacked(PlainIn, [input], true)
  {
  }

  /** One call on one processor. */
  ghost function LocalCall(p: Proc, input: seq<Byte>): (s: Stage)
    requires p.Live()
    ensures s.proc.Live()
  {
    if p.reverse then var u := Unpack(p.dec, input); Stage(p.(dec := u.next), u.out, u.ok)
    else var (enc, out) := Pack(p.enc, input); Stage(p.(enc := enc), out, true)
  }

  ghost function RemoteCall(p: Proc, input: seq<Byte>): (s: Stage)
    requires p.Live()
    ensures s.proc.Live()
  {
    if p.reverse then var (enc, out) := Pack(p.enc, input); Stage(p.(enc := enc), out, true)
    else var u := Unpack(p.dec, input); Stage(p.(dec := u.next), u.out, u.ok)
  }

  /** A list of buffers is fed one call at a time. */
  lemma LocalStageStep(p: Proc, bufs: seq<seq<Byte>>)
    requires p.Live() && bufs != []
    ensures var s := LocalCall(p, bufs[0]); var t := LocalStage(s.proc, bufs[1..]);
            LocalStage(p, bufs) == if s.ok then t.(out := s.out + t.out) else s
  {
    hide Pack, Unpack;
  }

  lemma RemoteStageStep(p: Proc, bufs: seq<seq<Byte>>)
    requires p.Live() && bufs != []
    ensures var s := RemoteCall(p, bufs[0]); var t := RemoteStage(s.proc, bufs[1..]);
            RemoteStage(p, bufs) == if s.ok then t.(out := s.out + t.out) else s
  {
    hide Pack, Unpack;
  }

  /** The inner loop of `ProcessorChain::on_local_data`. */
  method FeedLocal(p: Pointer, cur: seq<seq<Byte>>) returns (next: seq<seq<Byte>>, ok: bool)
    requires p.Ready()
    modifies p.Target()
    ensures p.Ready()
    ensures LocalStage(old(p.View()), cur) == Stage(p.View(), next, ok)
  {
    hide LocalCall, LocalStage;
    next, ok := [], true;
    assert LocalStage(p.View(), cur[0..]) == LocalStage(old(p.View()), cur);
    for j := 0 to |cur|
      invariant p.Ready() && ok
      invariant var t := LocalStage(p.View(), cur[j..]);
                LocalStage(old(p.View()), cur) == t.(out := next + t.out)
    {
      LocalStageStep(p.View(), cur[j..]);
      ghost var s := LocalCall(p.View(), cur[j]);
      ghost var sofar := next;
      next, ok := p.OnLocalData(cur[j], next);
      if !ok {
        return;
      }
      assert cur[j..][1..] == cur[j + 1..];
      Assoc(sofar, s.out, LocalStage(s.proc, cur[j + 1..]).out);
    }
    EmptyStage(p.View());
    assert cur[|cur|..] == [] && next + [] == next;
  }

  method FeedRemote(p: Pointer, cur: seq<seq<Byte>>) returns (next: seq<seq<Byte>>, ok: bool)
    requires p.Ready()
    modifies p.Target()
    ensures p.Ready()
    ensures RemoteStage(old(p.View()), cur) == Stage(p.View(), next, ok)
  {
    hide RemoteCall, RemoteStage;
    next, ok := [], true;
    assert RemoteStage(p.View(), cur[0..]) == RemoteStage(old(p.View()), cur);
    for j := 0 to |cur|
      invariant p.Ready() && ok
      invariant var t := RemoteStage(p.View(), cur[j..]);
                RemoteStage(old(p.View()), cur) == t.(out := next + t.out)
    {
      RemoteStageStep(p.View(), cur[j..]);
      ghost var s := RemoteCall(p.View(), cur[j]);
      ghost var sofar := next;
      next, ok := p.OnRemoteData(cur[j], next);
      if !ok {
        return;
      }
      assert cur[j..][1..] == cur[j + 1..];
      Assoc(sofar, s.out, RemoteStage(s.proc, cur[j + 1..]).out);
    }
    EmptyStage(p.View());
    assert cur[|cur|..] == [] && next + [] == next;
  }

  lemma EmptyStage(p: Proc)
    requires p.Live()
    ensures LocalStage(p, []) == RemoteStage(p, []) == Stage(p, [], true)
  {
  }
}
