/**
 The two halves of a processor as byte-stream machines.  `pack` and `unpack` never share state, so
 each is given by its own value: an `Encoder` and a `Decoder`.
 */
module Processor {
  import opened Octet
  import opened Sequences
  import Cipher
  import Padding

  const NONCE_SIZE: nat := 512
  const TAG_SIZE: nat := 32
  const HANDSHAKE_PACKET_SIZE: nat := TAG_SIZE + NONCE_SIZE
  const DIGEST_SIZE: nat := 64

  /** HMAC-SHA-256 and SHA-512 are arbitrary functions with the right result lengths. */
  type Mac = f: (seq<Byte>, seq<Byte>) -> seq<Byte> | forall key, data :: |f(key, data)| == TAG_SIZE
    witness (key, data) => seq(TAG_SIZE, _ => 0)

  type Hash = f: seq<Byte> -> seq<Byte> | forall data :: |f(data)| == DIGEST_SIZE
    witness data => seq(DIGEST_SIZE, _ => 0)

  type Nonce = s: seq<Byte> | |s| == NONCE_SIZE witness seq(NONCE_SIZE, _ => 0)

  /** What both ends of a `cfb_nonce` stage share. */
  datatype Secrets = Secrets(mac: Mac, hash: Hash, baseIv: seq<Byte>, hmacKey: seq<Byte>) {

    function Tag(nonce: seq<Byte>): (tag: seq<Byte>)
      ensures |tag| == TAG_SIZE
    {
      mac(hmacKey, nonce)
    }

    /** `derive_iv`: the digest of the nonce followed by the configured bytes. */
    function Start(nonce: seq<Byte>): Cipher.State {
      Cipher.RawState.State(hash(nonce + baseIv), 0)
    }
  }

  /** The handshake packet of `init_pack`. */
  function Handshake(secrets: Secrets, nonce: Nonce): (packet: seq<Byte>)
    ensures |packet| == HANDSHAKE_PACKET_SIZE
  {
    secrets.Tag(nonce) + nonce
  }

  /** `init_unpack`'s test of the first 544 bytes. */
  predicate Genuine(secrets: Secrets, packet: seq<Byte>)
    requires |packet| >= HANDSHAKE_PACKET_SIZE
  {
    packet[..TAG_SIZE] == secrets.Tag(packet[TAG_SIZE..HANDSHAKE_PACKET_SIZE])
  }

  /** The pack side; `GreetOut` is a `cfb_nonce` stage that has not sent its nonce yet. */
  datatype Encoder =
    | PlainOut
    | CipherOut(state: Cipher.State)
    | GreetOut(secrets: Secrets, nonce: Nonce)
    | FrameOut(limits: Padding.Limits, tape: Padding.Tape, rng: nat)
  {
    /** The packing loop ends on every input. */
    ghost predicate Live() {
      FrameOut? ==> limits.Bounded() && limits.chunk >= 1
    }
  }

  /** The unpack side with its residual buffers. */
  datatype Decoder =
    | PlainIn
    | CipherIn(state: Cipher.State)
    | GreetIn(secrets: Secrets, seen: seq<Byte>)
    | FrameIn(limits: Padding.Limits, acc: seq<Byte>)
  {
    /** Nothing that could be emitted is held back. */
    ghost predicate Settled() {
      && (GreetIn? ==> |seen| < HANDSHAKE_PACKET_SIZE)
      && (FrameIn? ==> limits.Bounded() && Padding.Incomplete(limits, acc))
    }
  }

  function Pack(e: Encoder, input: seq<Byte>): (r: (Encoder, seq<seq<Byte>>))
    requires e.Live()
    ensures r.0.Live() && (r.0.PlainOut? <==> e.PlainOut?)
  {
    match e
    case PlainOut => (e, [input])
    case CipherOut(state) =>
      var (state', out) := Cipher.Encrypt(state, input);
      (CipherOut(state'), [out])
    case GreetOut(secrets, nonce) =>
      var (state, out) := Cipher.Encrypt(secrets.Start(nonce), input);
      (CipherOut(state), [Handshake(secrets, nonce), out])
    case FrameOut(limits, tape, rng) =>
      var (rng', frames) := Padding.PackFrames(limits, tape, rng, input);
      (FrameOut(limits, tape, rng'), frames)
  }

  /** The state, the buffers pushed and whether the call returned without a throw. */
  datatype Unpacked = Unpacked(next: Decoder, out: seq<seq<Byte>>, ok: bool)

  function Unpack(d: Decoder, input: seq<Byte>): (u: Unpacked)
    ensures u.next.PlainIn? <==> d.PlainIn?
  {
    match d
    case PlainIn => Unpacked(d, [input], true)
    case CipherIn(state) =>
      var (state', out) := Cipher.Decrypt(state, input);
      Unpacked(CipherIn(state'), [out], true)
    case GreetIn(secrets, seen) =>
      var all := seen + input;
      if |all| < HANDSHAKE_PACKET_SIZE then Unpacked(GreetIn(secrets, all), [], true)
      else if !Genuine(secrets, all) then Unpacked(GreetIn(secrets, all), [], false)
      else
        var nonce := all[TAG_SIZE..HANDSHAKE_PACKET_SIZE];
        var (state, out) := Cipher.Decrypt(secrets.Start(nonce), all[HANDSHAKE_PACKET_SIZE..]);
        Unpacked(CipherIn(state), [out], true)
    case FrameIn(limits, acc) =>
      var p := Padding.Parse(limits, acc + input);
      Unpacked(FrameIn(limits, if p.ok then p.rest else acc + input), p.payloads, p.ok)
  }

  /** A decoder that is where its encoder is: nothing is in flight between them. */
  ghost predicate Paired(e: Encoder, d: Decoder) {
    match (e, d)
    case (PlainOut, PlainIn) => true
    case (CipherOut(s), CipherIn(t)) => s == t
    case (GreetOut(s, _), GreetIn(t, seen)) => s == t && seen == []
    case (FrameOut(l, _, _), FrameIn(m, acc)) => l == m && acc == []
    case _ => false
  }

  /** One `pack` call is undone by one `unpack` call, and the halves meet again. */
  lemma PackUnpack(e: Encoder, d: Decoder, input: seq<Byte>)
    requires e.Live() && Paired(e, d)
    ensures var (e', out) := Pack(e, input); var u := Unpack(d, Flatten(out));
            u.ok && Flatten(u.out) == input && Paired(e', u.next)
  {
    var out := Pack(e, input).1;
    match e
    case PlainOut =>
      FlattenOne(input);
    case CipherOut(state) =>
      FlattenOne(out[0]);
      Cipher.DecryptEncrypt(state, input);
      FlattenOne(input);
    case GreetOut(secrets, nonce) =>
      GreetUnpack(secrets, nonce, input);
    case FrameOut(limits, tape, rng) =>
      Padding.PackParse(limits, tape, rng, input);
      assert [] + Flatten(out) == Flatten(out);
  }

  lemma GreetUnpack(secrets: Secrets, nonce: Nonce, input: seq<Byte>)
    ensures var (e, out) := Pack(GreetOut(secrets, nonce), input);
            var u := Unpack(GreetIn(secrets, []), Flatten(out));
            u.ok && Flatten(u.out) == input && Paired(e, u.next)
  {
    hide Cipher.Encrypt, Cipher.Decrypt;
    var (state, cipher) := Cipher.Encrypt(secrets.Start(nonce), input);
    var packet := Handshake(secrets, nonce);
    FlattenCons(packet, [cipher]);
    FlattenOne(cipher);
    var all := [] + (packet + cipher);
    assert all == packet + cipher;
    assert all[..TAG_SIZE] == secrets.Tag(nonce);
    assert all[TAG_SIZE..HANDSHAKE_PACKET_SIZE] == nonce;
    assert all[HANDSHAKE_PACKET_SIZE..] == cipher;
    Cipher.DecryptEncrypt(secrets.Start(nonce), input);
    FlattenOne(input);
  }

  /** How two results compare when one was delivered in more pieces than the other. */
  ghost predicate SameStream(u: Unpacked, v: Unpacked) {
    u.ok == v.ok && (u.ok ==> u.next == v.next && Flatten(u.out) == Flatten(v.out))
  }

  /** The results of two calls in a row, taken as one. */
  ghost function Then(d: Decoder, a: seq<Byte>, b: seq<Byte>): Unpacked {
    var u := Unpack(d, a);
    if !u.ok then u
    else var v := Unpack(u.next, b); Unpacked(v.next, u.out + v.out, v.ok)
  }

  /** `unpack` does not see where the stream was cut: state, bytes and throw are the same. */
  lemma UnpackSplit(d: Decoder, a: seq<Byte>, b: seq<Byte>)
    ensures SameStream(Unpack(d, a + b), Then(d, a, b))
  {
    FlattenConcat(Unpack(d, a).out, Unpack(Unpack(d, a).next, b).out);
    match d
    case PlainIn =>
      FlattenOne(a);
      FlattenOne(b);
      FlattenOne(a + b);
    case CipherIn(state) =>
      CipherSplit(state, a, b);
    case GreetIn(secrets, seen) =>
      GreetSplit(secrets, seen, a, b);
    case FrameIn(limits, acc) =>
      Assoc(acc, a, b);
      if Padding.Parse(limits, acc + a).ok {
        Padding.ParseSplit(limits, acc + a, b);
      } else {
        Padding.ParseBadStays(limits, acc + a, b);
      }
  }

  lemma CipherSplit(state: Cipher.State, a: seq<Byte>, b: seq<Byte>)
    ensures SameStream(Unpack(CipherIn(state), a + b), Then(CipherIn(state), a, b))
  {
    hide Cipher.Decrypt;
    Cipher.DecryptSplit(state, a, b);
    var (s1, out1) := Cipher.Decrypt(state, a);
    var (s2, out2) := Cipher.Decrypt(s1, b);
    FlattenCons(out1, [out2]);
    FlattenOne(out2);
    FlattenOne(out1 + out2);
    assert [out1] + [out2] == [out1, out2];
  }

  lemma GreetSplit(secrets: Secrets, seen: seq<Byte>, a: seq<Byte>, b: seq<Byte>)
    ensures SameStream(Unpack(GreetIn(secrets, seen), a + b), Then(GreetIn(secrets, seen), a, b))
  {
    hide Cipher.Decrypt;
    Assoc(seen, a, b);
    var all := seen + a;
    if |all| < HANDSHAKE_PACKET_SIZE {
      var v := Unpack(GreetIn(secrets, all), b);
      assert [] + v.out == v.out;
    } else {
      assert (all + b)[..TAG_SIZE] == all[..TAG_SIZE];
      assert (all + b)[TAG_SIZE..HANDSHAKE_PACKET_SIZE] == all[TAG_SIZE..HANDSHAKE_PACKET_SIZE];
      if Genuine(secrets, all) {
        var start := secrets.Start(all[TAG_SIZE..HANDSHAKE_PACKET_SIZE]);
        CipherSplit(start, all[HANDSHAKE_PACKET_SIZE..], b);
        assert (all + b)[HANDSHAKE_PACKET_SIZE..] == all[HANDSHAKE_PACKET_SIZE..] + b;
      }
    }
  }

  /** A call that does not throw leaves nothing that could have been emitted. */
  lemma UnpackSettles(d: Decoder, input: seq<Byte>)
    requires d.Settled() && Unpack(d, input).ok
    ensures Unpack(d, input).next.Settled()
  {
    if d.FrameIn? {
      var _ := Padding.ParseConserves(d.limits, d.acc + input);
    }
  }

  /** An empty read changes nothing. */
  lemma UnpackNothing(d: Decoder)
    requires d.Settled()
    ensures Unpack(d, []).ok && Unpack(d, []).next == d && Flatten(Unpack(d, []).out) == []
  {
    match d
    case PlainIn =>
    case CipherIn(_) =>
    case GreetIn(_, seen) =>
      assert seen + [] == seen;
    case FrameIn(_, acc) =>
      assert acc + [] == acc;
  }

  // ----- several buffers -----

  function PackList(e: Encoder, bufs: seq<seq<Byte>>): (r: (Encoder, seq<seq<Byte>>))
    requires e.Live()
    ensures r.0.Live() && (r.0.PlainOut? <==> e.PlainOut?)
    decreases |bufs|
  {
    if bufs == [] then (e, [])
    else
      var (e1, out) := Pack(e, bufs[0]);
      var (e2, rest) := PackList(e1, bufs[1..]);
      (e2, out + rest)
  }

  /** Stops at the first call that throws. */
  function UnpackList(d: Decoder, bufs: seq<seq<Byte>>): (u: Unpacked)
    ensures u.next.PlainIn? <==> d.PlainIn?
    decreases |bufs|
  {
    if bufs == [] then Unpacked(d, [], true)
    else
      var u := Unpack(d, bufs[0]);
      if !u.ok then u
      else
        var v := UnpackList(u.next, bufs[1..]);
        Unpacked(v.next, u.out + v.out, v.ok)
  }

  /** An identity stage hands every buffer on, whichever of its halves is asked. */
  lemma {:induction false} PlainCopies(bufs: seq<seq<Byte>>)
    ensures PackList(PlainOut, bufs) == (PlainOut, bufs)
    ensures UnpackList(PlainIn, bufs) == Unpacked(PlainIn, bufs, true)
  {
    if bufs != [] {
      PlainCopies(bufs[1..]);
      assert [bufs[0]] + bufs[1..] == bufs;
    }
  }

  /** Any fragmentation of a stream is unpacked like the whole stream at once. */
  lemma {:induction false} UnpackListFlat(d: Decoder, bufs: seq<seq<Byte>>)
    requires d.Settled()
    ensures SameStream(UnpackList(d, bufs), Unpack(d, Flatten(bufs)))
    ensures UnpackList(d, bufs).ok ==> UnpackList(d, bufs).next.Settled()
    decreases |bufs|
  {
    hide Unpack;
    if bufs == [] {
      UnpackNothing(d);
    } else {
      var u := Unpack(d, bufs[0]);
      UnpackSplit(d, bufs[0], Flatten(bufs[1..]));
      if u.ok {
        UnpackSettles(d, bufs[0]);
        UnpackListFlat(u.next, bufs[1..]);
        FlattenConcat(u.out, UnpackList(u.next, bufs[1..]).out);
        FlattenConcat(u.out, Unpack(u.next, Flatten(bufs[1..])).out);
      }
    }
  }

  /** Any number of `pack` calls is undone by unpacking the bytes they sent. */
  lemma {:induction false} PackListUnpack(e: Encoder, d: Decoder, bufs: seq<seq<Byte>>)
    requires e.Live() && Paired(e, d)
    ensures var (e', out) := PackList(e, bufs); var u := Unpack(d, Flatten(out));
            u.ok && Flatten(u.out) == Flatten(bufs) && Paired(e', u.next)
    decreases |bufs|
  {
    hide Unpack, Pack;
    if bufs == [] {
      UnpackPairedNothing(e, d);
    } else {
      var (e1, out) := Pack(e, bufs[0]);
      var (e2, rest) := PackList(e1, bufs[1..]);
      PackUnpack(e, d, bufs[0]);
      var u := Unpack(d, Flatten(out));
      PackListUnpack(e1, u.next, bufs[1..]);
      FlattenConcat(out, rest);
      UnpackSplit(d, Flatten(out), Flatten(rest));
      FlattenConcat(u.out, Unpack(u.next, Flatten(rest)).out);
    }
  }

  lemma UnpackPairedNothing(e: Encoder, d: Decoder)
    requires e.Live() && Paired(e, d)
    ensures d.Settled()
    ensures Unpack(d, []).ok && Unpack(d, []).next == d && Flatten(Unpack(d, []).out) == []
  {
    UnpackNothing(d);
  }

  // ----- the cfb_nonce handshake -----

  /**
   A packer sends its 544-byte packet once, as a buffer of its own: the keyed digest of the nonce and then
   the nonce.  What follows is encrypted from the digest of the nonce and the configured bytes.
   */
  lemma GreetingFirst(secrets: Secrets, nonce: Nonce, bufs: seq<seq<Byte>>)
    requires bufs != []
    ensures PackList(GreetOut(secrets, nonce), bufs).1
         == [secrets.mac(secrets.hmacKey, nonce) + nonce]
          + PackList(CipherOut(Cipher.RawState.State(secrets.hash(nonce + secrets.baseIv), 0)), bufs).1
  {
    hide Cipher.Encrypt;
    var (state, out) := Cipher.Encrypt(secrets.Start(nonce), bufs[0]);
    Assoc([Handshake(secrets, nonce)], [out], PackList(CipherOut(state), bufs[1..]).1);
    assert [Handshake(secrets, nonce), out] == [Handshake(secrets, nonce)] + [out];
  }

  /**
   An unpacker pushes no buffer at all until 544 bytes have come in, whatever the fragments.  Then it throws,
   having pushed nothing, exactly if the first 32 are not the keyed digest of the other 512; otherwise it
   has emitted the decryption of what follows, from the digest of those 512 and the configured bytes.
   */
  lemma {:induction false} GreetingReceived(secrets: Secrets, bufs: seq<seq<Byte>>)
    ensures var all := Flatten(bufs); var u := UnpackList(GreetIn(secrets, []), bufs);
            if |all| < 544 then u == Unpacked(GreetIn(secrets, all), [], true)
            else
              var nonce := all[32..544];
              && (u.ok <==> all[..32] == secrets.mac(secrets.hmacKey, nonce))
              && (!u.ok ==> u.out == [])
              && (u.ok ==>
                   Flatten(u.out) == Cipher.Decrypt(Cipher.RawState.State(secrets.hash(nonce + secrets.baseIv), 0), all[544..]).1)
  {
    hide Cipher.Decrypt;
    var all := Flatten(bufs);
    UnpackListFlat(GreetIn(secrets, []), bufs);
    GreetingThrows(secrets, [], bufs);
    assert [] + all == all;
    if |all| < HANDSHAKE_PACKET_SIZE {
      GreetingWaits(secrets, [], bufs);
    } else if Genuine(secrets, all) {
      FlattenOne(Cipher.Decrypt(secrets.Start(all[TAG_SIZE..HANDSHAKE_PACKET_SIZE]), all[HANDSHAKE_PACKET_SIZE..]).1);
    }
  }

  /** If a call throws, it is the one that completes the packet, and none before it pushed anything. */
  lemma {:induction false} GreetingThrows(secrets: Secrets, seen: seq<Byte>, bufs: seq<seq<Byte>>)
    ensures var u := UnpackList(GreetIn(secrets, seen), bufs); !u.ok ==> u.out == []
    decreases |bufs|
  {
    hide Cipher.Decrypt, Padding.Parse, Genuine, Secrets.Start, Secrets.Tag;
    if bufs != [] {
      var u := Unpack(GreetIn(secrets, seen), bufs[0]);
      if u.next.GreetIn? {
        GreetingThrows(secrets, seen + bufs[0], bufs[1..]);
      } else {
        CipherNeverThrows(u.next.state, bufs[1..]);
      }
    }
  }

  lemma {:induction false} CipherNeverThrows(state: Cipher.State, bufs: seq<seq<Byte>>)
    ensures UnpackList(CipherIn(state), bufs).ok
    decreases |bufs|
  {
    if bufs != [] {
      CipherNeverThrows(Cipher.Decrypt(state, bufs[0]).0, bufs[1..]);
    }
  }

  lemma {:induction false} GreetingWaits(secrets: Secrets, seen: seq<Byte>, bufs: seq<seq<Byte>>)
    requires |seen| + |Flatten(bufs)| < HANDSHAKE_PACKET_SIZE
    ensures UnpackList(GreetIn(secrets, seen), bufs) == Unpacked(GreetIn(secrets, seen + Flatten(bufs)), [], true)
    decreases |bufs|
  {
    hide Cipher.Decrypt;
    if bufs == [] {
      assert seen + [] == seen;
    } else {
      assert |bufs[0]| <= |Flatten(bufs)|;
      GreetingWaits(secrets, seen + bufs[0], bufs[1..]);
      Assoc(seen, bufs[0], Flatten(bufs[1..]));
    }
  }

  /** Whatever the processor, after a call that threw every later call throws too. */
  lemma ThrowIsFinal(d: Decoder, input: seq<Byte>, more: seq<Byte>)
    requires !Unpack(d, input).ok
    ensures !Unpack(Unpack(d, input).next, more).ok
    ensures d.GreetIn? ==> Unpack(d, input).out == [] && Unpack(Unpack(d, input).next, more).out == []
  {
    hide Cipher.Decrypt;
    match d
    case GreetIn(secrets, seen) => MismatchIsFinal(secrets, seen + input, more);
    case FrameIn(limits, acc) => Padding.ParseBadStays(limits, acc + input, more);
  }

  /** After a tag mismatch every later call throws as well, and no call ever pushes a buffer. */
  lemma MismatchIsFinal(secrets: Secrets, seen: seq<Byte>, input: seq<Byte>)
    requires |seen| >= HANDSHAKE_PACKET_SIZE && !Genuine(secrets, seen)
    ensures Unpack(GreetIn(secrets, seen), input) == Unpacked(GreetIn(secrets, seen + input), [], false)
    ensures !Genuine(secrets, seen + input)
  {
    hide Cipher.Decrypt;
    assert (seen + input)[..TAG_SIZE] == seen[..TAG_SIZE];
    assert (seen + input)[TAG_SIZE..HANDSHAKE_PACKET_SIZE] == seen[TAG_SIZE..HANDSHAKE_PACKET_SIZE];
  }
}
