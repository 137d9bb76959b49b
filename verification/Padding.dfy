/** The random padding frames of `PaddingProcessor`: their layout, the packer and the parser. */
module Padding {
  import opened Octet
  import opened Bytes
  import opened Sequences

  /** `chunk_size_` and `pad_max_`; `build_processor_chain` bounds both by the largest `uint32_t`. */
  datatype Limits = Limits(chunk: nat, max: nat) {
    ghost predicate Bounded() {
      chunk < TWO_32 && max < TWO_32
    }
  }

  const HEADER_LEN: nat := 8

  /** The numbers a generator draws, one after another; a theorem for all tapes is for all draws. */
  type Tape = nat -> nat

  function FrameBytes(payload: seq<Byte>, pad: seq<Byte>): (frame: seq<Byte>)
    requires |payload| < TWO_32 && |pad| < TWO_32
    ensures |frame| == HEADER_LEN + |payload| + |pad|
  {
    WriteU32(|payload|) + WriteU32(|pad|) + payload + pad
  }

  // ----- packing -----

  /** `pad_len` and then that many padding bytes, drawn from position `rng` of the tape. */
  function DrawPad(tape: Tape, rng: nat, max: nat): (pad: seq<Byte>)
    ensures |pad| <= max
  {
    var len := tape(rng) % (max + 1);
    seq(len, i requires 0 <= i < len => (tape(rng + 1 + i) % 0x100) as Byte)
  }

  lemma PadBytes(tape: Tape, rng: nat, max: nat)
    ensures |DrawPad(tape, rng, max)| == tape(rng) % (max + 1)
    ensures forall i :: 0 <= i < |DrawPad(tape, rng, max)| ==>
              DrawPad(tape, rng, max)[i] == (tape(rng + 1 + i) % 0x100) as Byte
  {
  }

  /** The frames of one `apply_pack` call and the generator position afterwards. */
  function PackFrames(limits: Limits, tape: Tape, rng: nat, input: seq<Byte>): (r: (nat, seq<seq<Byte>>))
    requires limits.Bounded() && (limits.chunk >= 1 || input == [])
    decreases |input|
  {
    if input == [] then (rng, [])
    else
      var n := Min(limits.chunk, |input|);
      var pad := DrawPad(tape, rng, limits.max);
      var (rng', rest) := PackFrames(limits, tape, rng + 1 + |pad|, input[n..]);
      (rng', [FrameBytes(input[..n], pad)] + rest)
  }

  /** The position reached by `k` rounds of the packing loop. */
  function PackPosition(chunk: nat, size: nat, k: nat): (pos: nat)
    ensures pos <= size
  {
    if k == 0 then 0
    else
      var pos := PackPosition(chunk, size, k - 1);
      pos + Min(chunk, size - pos)
  }

  /** The packing loop ends on every input exactly when `chunk` is not zero (or nothing was read). */
  lemma {:induction false} PackTerminatesIff(chunk: nat, size: nat)
    ensures (exists k: nat :: PackPosition(chunk, size, k) == size) <==> chunk >= 1 || size == 0
  {
    if chunk >= 1 {
      PackAdvances(chunk, size, size);
    } else if size == 0 {
      assert PackPosition(chunk, size, 0) == size;
    } else {
      forall k: nat ensures PackPosition(chunk, size, k) == 0 {
        PackStuck(size, k);
      }
    }
  }

  lemma {:induction false} PackAdvances(chunk: nat, size: nat, k: nat)
    requires chunk >= 1
    ensures PackPosition(chunk, size, k) >= Min(k, size)
  {
    if k != 0 {
      PackAdvances(chunk, size, k - 1);
    }
  }

  lemma {:induction false} PackStuck(size: nat, k: nat)
    ensures PackPosition(0, size, k) == 0
  {
    if k != 0 {
      PackStuck(size, k - 1);
    }
  }

  /** One round of `apply_pack`: header, payload, then the drawn padding byte by byte. */
  method BuildFrame(limits: Limits, tape: Tape, rng0: nat, payload: seq<Byte>)
    returns (rng: nat, frame: seq<Byte>)
    requires limits.Bounded() && |payload| <= limits.chunk
    ensures frame == FrameBytes(payload, DrawPad(tape, rng0, limits.max))
    ensures rng == rng0 + 1 + |DrawPad(tape, rng0, limits.max)|
  {
    hide WriteU32, DrawPad;
    ghost var pad := DrawPad(tape, rng0, limits.max);
    PadBytes(tape, rng0, limits.max);
    var padLen := tape(rng0) % (limits.max + 1);
    rng := rng0 + 1;
    // the cast to `uint32_t` keeps the value
    frame := WriteU32(|payload| % TWO_32) + WriteU32(padLen) + payload;
    ghost var start := frame;
    for i := 0 to padLen
      invariant frame == start + pad[..i]
      invariant rng == rng0 + 1 + i
    {
      frame := frame + [(tape(rng) % 0x100) as Byte];
      rng := rng + 1;
    }
    assert pad[..padLen] == pad;
  }

  /** The loop of `apply_pack`. */
  method ApplyPack(limits: Limits, tape: Tape, rng0: nat, input: seq<Byte>, output0: seq<seq<Byte>>)
    returns (rng: nat, output: seq<seq<Byte>>)
    requires limits.Bounded() && (limits.chunk >= 1 || input == [])
    ensures rng == PackFrames(limits, tape, rng0, input).0
    ensures output == output0 + PackFrames(limits, tape, rng0, input).1
  {
    hide FrameBytes, DrawPad;
    rng, output := rng0, output0;
    var pos := 0;
    while pos < |input|
      invariant 0 <= pos <= |input|
      invariant PackFrames(limits, tape, rng0, input).0 == PackFrames(limits, tape, rng, input[pos..]).0
      invariant output0 + PackFrames(limits, tape, rng0, input).1
             == output + PackFrames(limits, tape, rng, input[pos..]).1
    {
      var payloadLen := Min(limits.chunk, |input| - pos);
      ghost var left := input[pos..];
      assert left[..payloadLen] == input[pos..pos + payloadLen];
      assert left[payloadLen..] == input[pos + payloadLen..];
      var frame;
      rng, frame := BuildFrame(limits, tape, rng, input[pos..pos + payloadLen]);
      Assoc(output, [frame], PackFrames(limits, tape, rng, left[payloadLen..]).1);
      output := output + [frame];
      pos := pos + payloadLen;
    }
    assert input[|input|..] == [];
  }

  // ----- parsing -----

  /** What stands at the front of the receive buffer. */
  datatype Head = Short | Bad | Frame(payload: seq<Byte>, len: nat)

  function ReadHead(limits: Limits, s: seq<Byte>): (h: Head)
    ensures h.Frame? ==> HEADER_LEN <= h.len <= |s|
  {
    if |s| < HEADER_LEN then Short
    else
      var payloadLen, padLen := ReadU32(s), ReadU32(s[4..]);
      if payloadLen > limits.chunk || padLen > limits.max then Bad
      else if |s| < HEADER_LEN + payloadLen + padLen then Short
      else Frame(s[HEADER_LEN..HEADER_LEN + payloadLen], HEADER_LEN + payloadLen + padLen)
  }

  /** The whole-buffer parser: payloads in order, the bytes left over, and whether it did not throw. */
  datatype Parsed = Parsed(payloads: seq<seq<Byte>>, rest: seq<Byte>, ok: bool)

  function Parse(limits: Limits, s: seq<Byte>): Parsed
    decreases |s|
  {
    match ReadHead(limits, s)
    case Short => Parsed([], s, true)
    case Bad => Parsed([], s, false)
    case Frame(payload, len) =>
      var p := Parse(limits, s[len..]);
      Parsed([payload] + p.payloads, p.rest, p.ok)
  }

  /** The loop of `apply_unpack` on the buffer after the input has been appended. */
  method ParseLoop(limits: Limits, acc: seq<Byte>, output0: seq<seq<Byte>>)
    returns (output: seq<seq<Byte>>, pos: nat, ok: bool)
    requires limits.Bounded()
    ensures output == output0 + Parse(limits, acc).payloads
    ensures ok == Parse(limits, acc).ok
    ensures pos <= |acc| && acc[pos..] == Parse(limits, acc).rest
  {
    hide ReadU32;
    output, pos, ok := output0, 0, true;
    while true
      invariant 0 <= pos <= |acc| && ok
      invariant Parse(limits, acc).rest == Parse(limits, acc[pos..]).rest
      invariant Parse(limits, acc).ok == Parse(limits, acc[pos..]).ok
      invariant output0 + Parse(limits, acc).payloads == output + Parse(limits, acc[pos..]).payloads
      decreases |acc| - pos
    {
      if |acc| - pos < 8 {
        return;
      }
      var payloadLen, padLen := ReadU32(acc[pos..]), ReadU32(acc[pos + 4..]);
      assert acc[pos..][4..] == acc[pos + 4..];
      if payloadLen > limits.chunk || padLen > limits.max {
        return output, pos, false;
      }
      // the 64-bit sum cannot exceed the largest `size_t`
      var frameLen := HEADER_LEN + payloadLen + padLen;
      assert frameLen < TWO_64;
      if |acc| - pos < frameLen {
        return;
      }
      var payload := acc[pos + 8..pos + 8 + payloadLen];
      Slices(acc, pos, payloadLen, frameLen);
      assert ReadHead(limits, acc[pos..]) == Frame(payload, frameLen);
      output := output + [payload];
      pos := pos + frameLen;
    }
  }

  lemma Slices(acc: seq<Byte>, pos: nat, payloadLen: nat, frameLen: nat)
    requires HEADER_LEN + payloadLen <= frameLen && pos + frameLen <= |acc|
    ensures acc[pos..][HEADER_LEN..HEADER_LEN + payloadLen] == acc[pos + 8..pos + 8 + payloadLen]
    ensures acc[pos..][frameLen..] == acc[pos + frameLen..]
  {
  }

  // ----- the wire format -----

  ghost predicate WithinLimits(limits: Limits, payloads: seq<seq<Byte>>, pads: seq<seq<Byte>>) {
    && |payloads| == |pads|
    && limits.Bounded()
    && (forall i :: 0 <= i < |payloads| ==> |payloads[i]| <= limits.chunk)
    && (forall i :: 0 <= i < |pads| ==> |pads[i]| <= limits.max)
  }

  /** A run of frames, written from its payloads and paddings. */
  ghost function Frames(limits: Limits, payloads: seq<seq<Byte>>, pads: seq<seq<Byte>>): seq<Byte>
    requires WithinLimits(limits, payloads, pads)
  {
    if payloads == [] then []
    else FrameBytes(payloads[0], pads[0]) + Frames(limits, payloads[1..], pads[1..])
  }

  lemma ReadFrame(limits: Limits, payload: seq<Byte>, pad: seq<Byte>, rest: seq<Byte>)
    requires limits.Bounded() && |payload| <= limits.chunk && |pad| <= limits.max
    ensures ReadHead(limits, FrameBytes(payload, pad) + rest) == Frame(payload, HEADER_LEN + |payload| + |pad|)
  {
    hide WriteU32, ReadU32;
    var s := FrameBytes(payload, pad) + rest;
    assert s == WriteU32(|payload|) + (WriteU32(|pad|) + payload + pad + rest);
    U32RoundTrip(|payload|, WriteU32(|pad|) + payload + pad + rest);
    assert s[4..] == WriteU32(|pad|) + (payload + pad + rest);
    U32RoundTrip(|pad|, payload + pad + rest);
  }

  lemma ParseOneFrame(limits: Limits, payload: seq<Byte>, pad: seq<Byte>, rest: seq<Byte>)
    requires limits.Bounded() && |payload| <= limits.chunk && |pad| <= limits.max
    ensures var p := Parse(limits, rest);
            Parse(limits, FrameBytes(payload, pad) + rest) == Parsed([payload] + p.payloads, p.rest, p.ok)
  {
    hide ReadHead, FrameBytes;
    ReadFrame(limits, payload, pad, rest);
    var f := FrameBytes(payload, pad);
    assert (f + rest)[|f|..] == rest;
  }

  /** Frames at the front of a buffer are all recovered, and parsing goes on behind them. */
  lemma {:induction false} ParseFrames(limits: Limits, payloads: seq<seq<Byte>>, pads: seq<seq<Byte>>, rest: seq<Byte>)
    requires WithinLimits(limits, payloads, pads)
    ensures Parse(limits, Frames(limits, payloads, pads) + rest)
         == Parsed(payloads + Parse(limits, rest).payloads, Parse(limits, rest).rest, Parse(limits, rest).ok)
  {
    hide FrameBytes, Parse;
    if payloads == [] {
      assert Frames(limits, payloads, pads) + rest == rest;
      assert payloads + Parse(limits, rest).payloads == Parse(limits, rest).payloads;
    } else {
      var f, tail := FrameBytes(payloads[0], pads[0]), Frames(limits, payloads[1..], pads[1..]);
      ParseFrames(limits, payloads[1..], pads[1..], rest);
      ParseOneFrame(limits, payloads[0], pads[0], tail + rest);
      Assoc(f, tail, rest);
      Assoc([payloads[0]], payloads[1..], Parse(limits, rest).payloads);
    }
  }

  /** A buffer that the parser keeps: it starts with an incomplete frame. */
  ghost predicate Incomplete(limits: Limits, s: seq<Byte>) {
    ReadHead(limits, s) == Short
  }

  /**
   Conservation: a buffer is the frames taken from it followed by the bytes left over.  Unless the
   parser threw, what is left over is an incomplete frame and shorter than the largest frame.
   */
  lemma {:induction false} ParseConserves(limits: Limits, s: seq<Byte>) returns (pads: seq<seq<Byte>>)
    requires limits.Bounded()
    ensures var p := Parse(limits, s);
            && WithinLimits(limits, p.payloads, pads)
            && s == Frames(limits, p.payloads, pads) + p.rest
            && (p.ok ==> Incomplete(limits, p.rest) && |p.rest| < HEADER_LEN + limits.chunk + limits.max)
            && (!p.ok ==> ReadHead(limits, p.rest) == Bad)
    decreases |s|
  {
    hide ReadHead, FrameBytes;
    match ReadHead(limits, s)
    case Short =>
      ShortIsSmall(limits, s);
      pads := [];
    case Bad =>
      pads := [];
    case Frame(payload, len) =>
      var rest := ParseConserves(limits, s[len..]);
      var pad := FrameParts(limits, s);
      pads := [pad] + rest;
      var p, q := Parse(limits, s), Parse(limits, s[len..]);
      assert p.payloads[1..] == q.payloads && pads[1..] == rest;
      Assoc(FrameBytes(payload, pad), Frames(limits, q.payloads, rest), p.rest);
  }

  lemma ShortIsSmall(limits: Limits, s: seq<Byte>)
    ensures Incomplete(limits, s) ==> |s| < HEADER_LEN + limits.chunk + limits.max
  {
  }

  /** A complete frame at the front is a frame in the sense of `FrameBytes`. */
  lemma FrameParts(limits: Limits, s: seq<Byte>) returns (pad: seq<Byte>)
    requires limits.Bounded() && ReadHead(limits, s).Frame?
    ensures |ReadHead(limits, s).payload| <= limits.chunk && |pad| <= limits.max
    ensures FrameBytes(ReadHead(limits, s).payload, pad) + s[ReadHead(limits, s).len..] == s
  {
    hide ReadU32, WriteU32;
    var payload, len := ReadHead(limits, s).payload, ReadHead(limits, s).len;
    pad := s[HEADER_LEN + |payload|..len];
    HeaderBytes(s);
    assert s[..len] == s[..HEADER_LEN] + payload + pad;
    assert s == s[..len] + s[len..];
  }

  /** The eight header bytes are the two lengths they are read as. */
  lemma HeaderBytes(s: seq<Byte>)
    requires |s| >= HEADER_LEN
    ensures s[..HEADER_LEN] == WriteU32(ReadU32(s)) + WriteU32(ReadU32(s[4..]))
  {
    ReadWriteU32(s);
    ReadWriteU32(s[4..]);
    assert s[..HEADER_LEN] == s[..4] + s[4..][..4];
  }

  /** Parsing a buffer in two pieces, the second behind what the first left over. */
  lemma {:induction false} ParseSplit(limits: Limits, a: seq<Byte>, b: seq<Byte>)
    requires Parse(limits, a).ok
    ensures var p := Parse(limits, a); var q := Parse(limits, p.rest + b);
            Parse(limits, a + b) == Parsed(p.payloads + q.payloads, q.rest, q.ok)
    decreases |a|
  {
    hide ReadHead;
    var q := Parse(limits, Parse(limits, a).rest + b);
    match ReadHead(limits, a)
    case Short =>
      assert [] + q.payloads == q.payloads;
    case Frame(payload, len) =>
      ReadHeadMore(limits, a, b);
      assert (a + b)[len..] == a[len..] + b;
      ParseSplit(limits, a[len..], b);
      Assoc([payload], Parse(limits, a[len..]).payloads, q.payloads);
  }

  /** More input never turns a throw into success, and a throw costs no frame before it. */
  lemma {:induction false} ParseBadStays(limits: Limits, a: seq<Byte>, b: seq<Byte>)
    requires !Parse(limits, a).ok
    ensures !Parse(limits, a + b).ok && Parse(limits, a + b).payloads == Parse(limits, a).payloads
    decreases |a|
  {
    hide ReadHead;
    ReadHeadMore(limits, a, b);
    match ReadHead(limits, a)
    case Bad =>
    case Frame(payload, len) =>
      ParseBadStays(limits, a[len..], b);
      assert (a + b)[len..] == a[len..] + b;
  }

  /** A verdict on a header does not wait for, or depend on, what follows. */
  lemma ReadHeadMore(limits: Limits, a: seq<Byte>, b: seq<Byte>)
    ensures !ReadHead(limits, a).Short? ==> ReadHead(limits, a + b) == ReadHead(limits, a)
  {
    hide ReadU32;
    if |a| >= HEADER_LEN {
      ReadU32Prefix(a, b);
      assert (a + b)[4..] == a[4..] + b;
      ReadU32Prefix(a[4..], b);
      var h := ReadHead(limits, a);
      if h.Frame? {
        assert (a + b)[HEADER_LEN..HEADER_LEN + |h.payload|] == h.payload;
      }
    }
  }

  // ----- the format, byte by byte -----

  /** Eight header bytes, the lengths of payload and padding most significant byte first, then the two. */
  lemma FrameLayout(payload: seq<Byte>, pad: seq<Byte>)
    requires |payload| < TWO_32 && |pad| < TWO_32
    ensures var f := FrameBytes(payload, pad);
            && |f| == 8 + |payload| + |pad|
            && Quad(f, 0) == |payload| && Quad(f, 4) == |pad|
            && f[8..8 + |payload|] == payload && f[8 + |payload|..] == pad
  {
    hide WriteU32, Quad;
    var f := FrameBytes(payload, pad);
    var tail := WriteU32(|pad|) + payload + pad;
    assert f == WriteU32(|payload|) + tail;
    WrittenQuad(|payload|, tail);
    assert f[4..] == WriteU32(|pad|) + (payload + pad);
    WrittenQuad(|pad|, payload + pad);
    QuadDrop(f);
    assert f[8..] == payload + pad;
    assert f[8..8 + |payload|] == f[8..][..|payload|] && f[8 + |payload|..] == f[8..][|payload|..];
  }

  lemma QuadDrop(s: seq<Byte>)
    requires |s| >= 8
    ensures Quad(s[4..], 0) == Quad(s, 4)
  {
  }

  lemma HeadNumbers(limits: Limits, s: seq<Byte>)
    requires |s| >= 8
    ensures var a, b := Quad(s, 0), Quad(s, 4);
            && 0 <= a && 0 <= b
            && (ReadHead(limits, s).Bad? <==> a > limits.chunk || b > limits.max)
            && (ReadHead(limits, s).Short? <==> a <= limits.chunk && b <= limits.max && |s| < 8 + a + b)
            && (ReadHead(limits, s).Frame? ==> ReadHead(limits, s) == Frame(s[8..8 + a], 8 + a + b))
  {
    hide ReadU32, Quad;
    ReadIsQuad(s, 0);
    ReadIsQuad(s, 4);
    assert s[0..] == s;
  }

  /**
   The early refusal, exactly: a buffer is refused at its first header if and only if one of the two numbers
   there is over its limit.  Eight bytes are enough for it.
   */
  lemma {:induction false} RefusedExact(limits: Limits, s: seq<Byte>)
    requires |s| >= 8
    ensures !Parse(limits, s).ok && Parse(limits, s).payloads == [] <==>
              Quad(s, 0) > limits.chunk || Quad(s, 4) > limits.max
  {
    hide ReadHead, Quad;
    HeadNumbers(limits, s);
  }

  /** A buffer whose first header is within the limits gives a frame exactly when all of it is there. */
  lemma {:induction false} FirstFrameExact(limits: Limits, s: seq<Byte>)
    requires |s| >= 8 && Quad(s, 0) <= limits.chunk && Quad(s, 4) <= limits.max
    ensures var a, b := Quad(s, 0), Quad(s, 4);
            && 0 <= a && 0 <= b
            && if |s| < 8 + a + b then Parse(limits, s) == Parsed([], s, true)
               else var p := Parse(limits, s[8 + a + b..]);
                    Parse(limits, s) == Parsed([s[8..8 + a]] + p.payloads, p.rest, p.ok)
  {
    hide ReadHead, Quad;
    HeadNumbers(limits, s);
  }

  /** What a call that does not throw keeps: fewer than eight bytes, or a good header without its frame. */
  lemma {:induction false} RemainderExact(limits: Limits, s: seq<Byte>)
    ensures var p := Parse(limits, s);
            p.ok && |p.rest| >= 8 ==>
              && Quad(p.rest, 0) <= limits.chunk && Quad(p.rest, 4) <= limits.max
              && |p.rest| < 8 + Quad(p.rest, 0) + Quad(p.rest, 4)
    decreases |s|
  {
    hide ReadHead, Quad;
    match ReadHead(limits, s)
    case Short =>
      if |s| >= 8 {
        HeadNumbers(limits, s);
      }
    case Bad =>
    case Frame(_, len) => RemainderExact(limits, s[len..]);
  }

  // ----- packing then parsing -----

  /** The payload pieces and paddings that `PackFrames` chose. */
  ghost function Pieces(limits: Limits, input: seq<Byte>): (r: seq<seq<Byte>>)
    requires limits.chunk >= 1 || input == []
    decreases |input|
  {
    if input == [] then []
    else
      var n := Min(limits.chunk, |input|);
      [input[..n]] + Pieces(limits, input[n..])
  }

  ghost function Pads(limits: Limits, tape: Tape, rng: nat, input: seq<Byte>): (r: seq<seq<Byte>>)
    requires limits.chunk >= 1 || input == []
    decreases |input|
  {
    if input == [] then []
    else
      var pad := DrawPad(tape, rng, limits.max);
      [pad] + Pads(limits, tape, rng + 1 + |pad|, input[Min(limits.chunk, |input|)..])
  }

  /** Every piece but the last is `chunk` bytes long, and none is empty. */
  lemma {:induction false} PiecesFull(limits: Limits, input: seq<Byte>, i: nat)
    requires (limits.chunk >= 1 || input == []) && i < |Pieces(limits, input)|
    ensures 1 <= |Pieces(limits, input)[i]| <= limits.chunk
    ensures i < |Pieces(limits, input)| - 1 ==> |Pieces(limits, input)[i]| == limits.chunk
    decreases i
  {
    if i > 0 {
      PiecesFull(limits, input[Min(limits.chunk, |input|)..], i - 1);
    }
  }

  lemma {:induction false} PackIsFrames(limits: Limits, tape: Tape, rng: nat, input: seq<Byte>)
    requires limits.Bounded() && (limits.chunk >= 1 || input == [])
    ensures WithinLimits(limits, Pieces(limits, input), Pads(limits, tape, rng, input))
    ensures Flatten(PackFrames(limits, tape, rng, input).1)
         == Frames(limits, Pieces(limits, input), Pads(limits, tape, rng, input))
    ensures Flatten(Pieces(limits, input)) == input
    decreases |input|
  {
    hide FrameBytes, DrawPad;
    if input != [] {
      var n := Min(limits.chunk, |input|);
      var pad := DrawPad(tape, rng, limits.max);
      PackIsFrames(limits, tape, rng + 1 + |pad|, input[n..]);
      var ps, qs := Pieces(limits, input[n..]), Pads(limits, tape, rng + 1 + |pad|, input[n..]);
      assert Pieces(limits, input) == [input[..n]] + ps && Pads(limits, tape, rng, input) == [pad] + qs;
      assert ([input[..n]] + ps)[1..] == ps && ([pad] + qs)[1..] == qs;
      assert input[..n] + input[n..] == input;
      var rest := PackFrames(limits, tape, rng + 1 + |pad|, input[n..]).1;
      assert ([FrameBytes(input[..n], pad)] + rest)[1..] == rest;
    }
  }

  /** One `pack` call is decoded to exactly its input, whatever was drawn, leaving nothing behind. */
  lemma PackParse(limits: Limits, tape: Tape, rng: nat, input: seq<Byte>)
    requires limits.Bounded() && (limits.chunk >= 1 || input == [])
    ensures var p := Parse(limits, Flatten(PackFrames(limits, tape, rng, input).1));
            p.ok && p.rest == [] && Flatten(p.payloads) == input
  {
    PackIsFrames(limits, tape, rng, input);
    var ps, qs := Pieces(limits, input), Pads(limits, tape, rng, input);
    ParseFrames(limits, ps, qs, []);
    assert Frames(limits, ps, qs) + [] == Frames(limits, ps, qs);
    assert ps + [] == ps;
  }

  /** `k` frames for `n` bytes, with `k` the quotient `n / chunk` rounded up. */
  lemma {:induction false} PackCount(limits: Limits, tape: Tape, rng: nat, input: seq<Byte>)
    requires limits.Bounded() && limits.chunk >= 1
    ensures var frames := PackFrames(limits, tape, rng, input).1;
            |input| <= |frames| * limits.chunk < |input| + limits.chunk
    decreases |input|
  {
    hide FrameBytes, DrawPad;
    if input != [] {
      var n := Min(limits.chunk, |input|);
      var next := rng + 1 + |DrawPad(tape, rng, limits.max)|;
      PackCount(limits, tape, next, input[n..]);
      Distribute(|PackFrames(limits, tape, next, input[n..]).1|, limits.chunk);
    }
  }

  /** Every frame costs its header and at most `max` bytes of padding. */
  lemma {:induction false} PackSize(limits: Limits, tape: Tape, rng: nat, input: seq<Byte>)
    requires limits.Bounded() && (limits.chunk >= 1 || input == [])
    ensures var frames := PackFrames(limits, tape, rng, input).1;
            |input| + 8 * |frames| <= |Flatten(frames)| <= |input| + |frames| * (8 + limits.max)
    decreases |input|
  {
    hide FrameBytes, DrawPad;
    if input != [] {
      var n := Min(limits.chunk, |input|);
      var pad := DrawPad(tape, rng, limits.max);
      var rest := PackFrames(limits, tape, rng + 1 + |pad|, input[n..]).1;
      PackSize(limits, tape, rng + 1 + |pad|, input[n..]);
      FlattenCons(FrameBytes(input[..n], pad), rest);
      Distribute(|rest|, 8 + limits.max);
    }
  }

  lemma Distribute(k: nat, c: nat)
    ensures (k + 1) * c == k * c + c
  {
  }
}
