/**
 The byte feedback scheme shared by `CfbProcessor` and `CfbNonceProcessor`.  Every cipher byte is
 folded back into the key stream, so the state after a call is decided by the cipher text alone.
 */
module Cipher {
  import opened Octet
  import opened Bytes
  import Transducer

  /** `iv` and `offset` of one direction; `offset` is a `size_t`. */
  datatype RawState = State(iv: seq<Byte>, offset: nat)

  type State = s: RawState | 0 < |s.iv| && s.offset < TWO_64 witness RawState.State([0], 0)

  /** `mix`: an in-place add followed by an in-place exclusive or, possibly on the same byte. */
  function Mix(iv: seq<Byte>, pos: nat, cipher: Byte): (mixed: seq<Byte>)
    requires pos < |iv|
    ensures |mixed| == |iv|
  {
    var added := iv[pos := iv[pos] + cipher];
    var next := (pos + 1) % |added|;
    added[next := added[next] ^ cipher]
  }

  function KeyByte(s: State): Byte {
    s.iv[s.offset % |s.iv|]
  }

  /** The state after one cipher byte; the offset wraps as `size_t` does. */
  function Feed(s: State, cipher: Byte): State {
    RawState.State(Mix(s.iv, s.offset % |s.iv|, cipher), if s.offset + 1 == TWO_64 then 0 else s.offset + 1)
  }

  function EncryptByte(s: State, plain: Byte): (State, Byte) {
    var cipher := plain ^ KeyByte(s);
    (Feed(s, cipher), cipher)
  }

  function DecryptByte(s: State, cipher: Byte): (State, Byte) {
    (Feed(s, cipher), cipher ^ KeyByte(s))
  }

  function Encrypt(s: State, plain: seq<Byte>): (r: (State, seq<Byte>))
    ensures |r.1| == |plain|
  {
    Transducer.Run(EncryptByte, s, plain)
  }

  function Decrypt(s: State, text: seq<Byte>): (r: (State, seq<Byte>))
    ensures |r.1| == |text|
  {
    Transducer.Run(DecryptByte, s, text)
  }

  lemma Cancel(a: Byte, b: Byte)
    ensures (a ^ b) ^ b == a
  {
  }

  /** `decrypt` undoes `encrypt` and ends in the encrypting side's state. */
  lemma DecryptEncrypt(s: State, plain: seq<Byte>)
    ensures Decrypt(s, Encrypt(s, plain).1) == (Encrypt(s, plain).0, plain)
  {
    forall t: State, x: Byte ensures DecryptByte(t, EncryptByte(t, x).1) == (EncryptByte(t, x).0, x) {
      Cancel(x, KeyByte(t));
    }
    Transducer.RunInverse(EncryptByte, DecryptByte, s, plain);
  }

  /** `encrypt` undoes `decrypt`: together with `DecryptEncrypt`, both are bijections. */
  lemma EncryptDecrypt(s: State, text: seq<Byte>)
    ensures Encrypt(s, Decrypt(s, text).1) == (Decrypt(s, text).0, text)
  {
    forall t: State, x: Byte ensures EncryptByte(t, DecryptByte(t, x).1) == (DecryptByte(t, x).0, x) {
      Cancel(x, KeyByte(t));
    }
    Transducer.RunInverse(DecryptByte, EncryptByte, s, text);
  }

  /** Splitting a buffer over two `encrypt` calls changes neither the bytes nor the state. */
  lemma EncryptSplit(s: State, a: seq<Byte>, b: seq<Byte>)
    ensures var (s1, out1) := Encrypt(s, a); var (s2, out2) := Encrypt(s1, b);
            Encrypt(s, a + b) == (s2, out1 + out2)
  {
    Transducer.RunSplit(EncryptByte, s, a, b);
  }

  lemma DecryptSplit(s: State, a: seq<Byte>, b: seq<Byte>)
    ensures var (s1, out1) := Decrypt(s, a); var (s2, out2) := Decrypt(s1, b);
            Decrypt(s, a + b) == (s2, out1 + out2)
  {
    Transducer.RunSplit(DecryptByte, s, a, b);
  }

  /** Both ends follow the cipher text: after every byte of it their states are equal. */
  lemma Lockstep(s: State, plain: seq<Byte>, k: nat)
    requires k <= |plain|
    ensures Decrypt(s, Encrypt(s, plain).1[..k]) == (Encrypt(s, plain[..k]).0, plain[..k])
  {
    EncryptSplit(s, plain[..k], plain[k..]);
    assert plain[..k] + plain[k..] == plain;
    assert Encrypt(s, plain).1[..k] == Encrypt(s, plain[..k]).1;
    DecryptEncrypt(s, plain[..k]);
  }

  lemma Wrap(offset: nat, n: nat)
    requires offset < TWO_64
    ensures (offset + n + 1) % TWO_64
         == if (offset + n) % TWO_64 + 1 == TWO_64 then 0 else (offset + n) % TWO_64 + 1
  {
  }

  /** Where the state is after some bytes, on either side. */
  lemma {:induction false} Shape(s: State, xs: seq<Byte>)
    ensures |Encrypt(s, xs).0.iv| == |Decrypt(s, xs).0.iv| == |s.iv|
    ensures Encrypt(s, xs).0.offset == Decrypt(s, xs).0.offset == (s.offset + |xs|) % TWO_64
  {
    if xs != [] {
      var n := |xs| - 1;
      Shape(s, xs[..n]);
      Wrap(s.offset, n);
      FeedShape(Encrypt(s, xs[..n]).0, EncryptByte(Encrypt(s, xs[..n]).0, xs[n]).1);
      FeedShape(Decrypt(s, xs[..n]).0, xs[n]);
    }
  }

  lemma FeedShape(s: State, cipher: Byte)
    ensures |Feed(s, cipher).iv| == |s.iv|
    ensures Feed(s, cipher).offset == if s.offset + 1 == TWO_64 then 0 else s.offset + 1
  {
  }

  /** The key position of byte `i` of a buffer: `(offset + i) % iv.size()` on `size_t`. */
  function Slot(offset: nat, i: nat, size: nat): (pos: nat)
    requires 0 < size
    ensures pos < size
  {
    (offset + i) % TWO_64 % size
  }

  /** One more byte of a buffer, with the key position as the code computes it. */
  lemma EncryptNext(s: State, input: seq<Byte>, i: nat)
    requires i < |input|
    ensures var t := Encrypt(s, input[..i]).0;
            var pos := Slot(s.offset, i, |s.iv|);
            && |t.iv| == |s.iv|
            && var cipher := input[i] ^ t.iv[pos];
            && Encrypt(s, input[..i + 1]).0.iv == Mix(t.iv, pos, cipher)
            && Encrypt(s, input[..i + 1]).1 == Encrypt(s, input[..i]).1 + [cipher]
  {
    hide Mix;
    Shape(s, input[..i]);
    assert input[..i + 1][..i] == input[..i];
  }

  lemma DecryptNext(s: State, input: seq<Byte>, i: nat)
    requires i < |input|
    ensures var t := Decrypt(s, input[..i]).0;
            var pos := Slot(s.offset, i, |s.iv|);
            && |t.iv| == |s.iv|
            && Decrypt(s, input[..i + 1]).0.iv == Mix(t.iv, pos, input[i])
            && Decrypt(s, input[..i + 1]).1 == Decrypt(s, input[..i]).1 + [input[i] ^ t.iv[pos]]
  {
    hide Mix;
    Shape(s, input[..i]);
    assert input[..i + 1][..i] == input[..i];
  }

  // ----- the scheme byte by byte -----

  /** What one cipher byte does to a key, at its position `pos` and at the `next` one, which may be the same. */
  ghost predicate FedBack(key: seq<Byte>, key': seq<Byte>, pos: nat, next: nat, cipher: Byte)
    requires pos < |key| && next < |key|
  {
    && |key'| == |key|
    && (pos == next ==> key'[pos] == (key[pos] + cipher) ^ cipher)
    && (pos != next ==> key'[pos] == key[pos] + cipher && key'[next] == key[next] ^ cipher)
    && forall k :: 0 <= k < |key| && k != pos && k != next ==> key'[k] == key[k]
  }

  lemma NextSlot(pos: nat, size: nat)
    requires pos < size
    ensures (pos + 1) % size == if pos + 1 == size then 0 else pos + 1
  {
  }

  lemma MixIs(key: seq<Byte>, pos: nat, next: nat, cipher: Byte)
    requires pos < |key| && next == (pos + 1) % |key|
    ensures next < |key|
    ensures var added := key[pos := key[pos] + cipher]; Mix(key, pos, cipher) == added[next := added[next] ^ cipher]
  {
  }

  lemma UpdatedTwice<T>(key: seq<T>, pos: nat, next: nat, x: T, y: T)
    requires pos < |key| && next < |key|
    ensures var added := key[pos := x]; var mixed := added[next := y];
            && |mixed| == |key| && added[next] == (if pos == next then x else key[next])
            && mixed[next] == y && (pos != next ==> mixed[pos] == x)
            && forall k :: 0 <= k < |key| && k != pos && k != next ==> mixed[k] == key[k]
  {
  }

  lemma MixedAt(key: seq<Byte>, pos: nat, next: nat, cipher: Byte)
    requires pos < |key| && next < |key|
    ensures var added := key[pos := key[pos] + cipher]; FedBack(key, added[next := added[next] ^ cipher], pos, next, cipher)
  {
    var sum := key[pos] + cipher;
    var was := if pos == next then sum else key[next];
    var mixed := key[pos := sum][next := was ^ cipher];
    UpdatedTwice(key, pos, next, sum, was ^ cipher);
    assert FedBack(key, mixed, pos, next, cipher);
  }

  function Next(pos: nat, size: nat): (next: nat)
    requires pos < size
    ensures next < size
  {
    if pos + 1 == size then 0 else pos + 1
  }

  lemma MixFeedsBack(key: seq<Byte>, pos: nat, cipher: Byte)
    requires pos < |key|
    ensures FedBack(key, Mix(key, pos, cipher), pos, Next(pos, |key|), cipher)
  {
    hide Mix, FedBack;
    NextSlot(pos, |key|);
    MixIs(key, pos, Next(pos, |key|), cipher);
    MixedAt(key, pos, Next(pos, |key|), cipher);
  }

  /**
   The whole cipher: byte `i` is the plain byte masked with the key byte at `(offset + i) % size`, and is
   then added to that key byte and masked into the next one; no other key byte changes.
   */
  lemma {:induction false} EncryptExact(s: State, plain: seq<Byte>, i: nat)
    requires i < |plain|
    ensures var key, key' := Encrypt(s, plain[..i]).0.iv, Encrypt(s, plain[..i + 1]).0.iv;
            var pos := (s.offset + i) % TWO_64 % |s.iv|;
            var cipher := Encrypt(s, plain).1[i];
            && |key| == |s.iv| && cipher == plain[i] ^ key[pos] && FedBack(key, key', pos, Next(pos, |key|), cipher)
  {
    hide Mix, Encrypt, FedBack;
    EncryptNext(s, plain, i);
    EncryptSplit(s, plain[..i + 1], plain[i + 1..]);
    assert plain[..i + 1] + plain[i + 1..] == plain;
    assert Encrypt(s, plain[..i + 1]).1[i] == Encrypt(s, plain).1[i];
    MixFeedsBack(Encrypt(s, plain[..i]).0.iv, Slot(s.offset, i, |s.iv|), Encrypt(s, plain).1[i]);
  }

  lemma FirstSlots(size: nat)
    requires size >= 2
    ensures (0 + 0) % TWO_64 % size == 0 && (0 + 1) % TWO_64 % size == 1
  {
  }

  /** The second byte of a fresh stream already depends on the first. */
  lemma {:induction false} SecondByte(key: seq<Byte>, plain: seq<Byte>)
    requires |key| >= 2 && |plain| >= 2
    ensures var s: State := RawState.State(key, 0); var out := Encrypt(s, plain).1;
            out[0] == plain[0] ^ key[0] && out[1] == plain[1] ^ (key[1] ^ out[0])
  {
    hide Encrypt;
    var s: State := RawState.State(key, 0);
    FirstSlots(|key|);
    StartOf(s, plain);
    EncryptExact(s, plain, 0);
    EncryptExact(s, plain, 1);
  }

  lemma StartOf(s: State, input: seq<Byte>)
    ensures Encrypt(s, input[..0]) == (s, []) && Decrypt(s, input[..0]) == (s, [])
  {
  }

  method MixInPlace(cipher: Byte, iv0: seq<Byte>, pos: nat) returns (iv: seq<Byte>)
    requires pos < |iv0|
    ensures iv == Mix(iv0, pos, cipher)
  {
    iv := iv0[pos := iv0[pos] + cipher];
    var next := (pos + 1) % |iv|;
    iv := iv[next := iv[next] ^ cipher];
  }

  /** The loop of `encrypt` on one buffer, updating the buffer, `iv` and `offset`. */
  method EncryptBytes(input: seq<Byte>, iv0: seq<Byte>, offset0: nat, ghost s0: State)
    returns (buf: seq<Byte>, iv: seq<Byte>)
    requires s0 == RawState.State(iv0, offset0)
    ensures iv == Encrypt(s0, input).0.iv && buf == Encrypt(s0, input).1
  {
    hide Mix, Slot, Encrypt;
    assert Encrypt(s0, input[..0]) == (s0, []) by { StartOf(s0, input); }
    buf, iv := input, iv0;
    for i := 0 to |input|
      invariant |buf| == |input| && |iv| == |iv0|
      invariant buf[..i] == Encrypt(s0, input[..i]).1 && buf[i..] == input[i..]
      invariant iv == Encrypt(s0, input[..i]).0.iv
    {
      EncryptNext(s0, input, i);
      assert buf[i] == buf[i..][0] == input[i];
      var pos := Slot(offset0, i, |iv|);
      var cipher := buf[i] ^ iv[pos];
      buf := buf[i := cipher];
      iv := MixInPlace(cipher, iv, pos);
    }
    assert input[..|input|] == input && buf[..|input|] == buf;
  }

  method EncryptBuffer(input: seq<Byte>, iv0: seq<Byte>, offset0: nat)
    returns (buf: seq<Byte>, iv: seq<Byte>, offset: nat)
    requires 0 < |iv0| && offset0 < TWO_64
    ensures 0 < |iv| && offset < TWO_64
    ensures Encrypt(RawState.State(iv0, offset0), input) == (RawState.State(iv, offset), buf)
  {
    ghost var s0: State := RawState.State(iv0, offset0);
    buf, iv := EncryptBytes(input, iv0, offset0, s0);
    Shape(s0, input);
    offset := (offset0 + |buf|) % TWO_64;
  }

  /** The loop of `decrypt`: the buffer is overwritten after its cipher byte has been saved. */
  method DecryptBytes(input: seq<Byte>, iv0: seq<Byte>, offset0: nat, ghost s0: State)
    returns (buf: seq<Byte>, iv: seq<Byte>)
    requires s0 == RawState.State(iv0, offset0)
    ensures iv == Decrypt(s0, input).0.iv && buf == Decrypt(s0, input).1
  {
    hide Mix, Slot, Decrypt;
    assert Decrypt(s0, input[..0]) == (s0, []) by { StartOf(s0, input); }
    buf, iv := input, iv0;
    for i := 0 to |input|
      invariant |buf| == |input| && |iv| == |iv0|
      invariant buf[..i] == Decrypt(s0, input[..i]).1 && buf[i..] == input[i..]
      invariant iv == Decrypt(s0, input[..i]).0.iv
    {
      DecryptNext(s0, input, i);
      assert buf[i] == buf[i..][0] == input[i];
      var pos := Slot(offset0, i, |iv|);
      var cipher := buf[i];
      buf := buf[i := buf[i] ^ iv[pos]];
      iv := MixInPlace(cipher, iv, pos);
    }
    assert input[..|input|] == input && buf[..|input|] == buf;
  }

  method DecryptBuffer(input: seq<Byte>, iv0: seq<Byte>, offset0: nat)
    returns (buf: seq<Byte>, iv: seq<Byte>, offset: nat)
    requires 0 < |iv0| && offset0 < TWO_64
    ensures 0 < |iv| && offset < TWO_64
    ensures Decrypt(RawState.State(iv0, offset0), input) == (RawState.State(iv, offset), buf)
  {
    ghost var s0: State := RawState.State(iv0, offset0);
    buf, iv := DecryptBytes(input, iv0, offset0, s0);
    Shape(s0, input);
    offset := (offset0 + |buf|) % TWO_64;
  }
}
