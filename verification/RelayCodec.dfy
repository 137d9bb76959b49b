/** The frames of the relay links: their bytes, their reader and the uuid bodies. */
module RelayCodec {
  import opened Octet
  import opened Bytes
  import opened Sequences

  const REGISTER: Byte := 0x01
  const READY: Byte := 0x02
  const NEW_SESSION: Byte := 0x03
  const FORWARD_SESSION: Byte := 0x04
  const SESSION_OK: Byte := 0x05
  const SESSION_ERR: Byte := 0x06
  const DATA: Byte := 0x10
  const DATA_EOF: Byte := 0x11
  const SESSION_CLOSE: Byte := 0x12
  const EOF: Byte := 0xFF

  const UUID_BYTES: nat := 36

  datatype Frame = Frame(kind: Byte, body: seq<Byte>)

  /** `build_frame_bytes`; the length is cut to 32 bits. */
  function BuildFrame(f: Frame): (bytes: seq<Byte>)
    ensures |bytes| == 5 + |f.body|
  {
    WriteU32((1 + |f.body|) % TWO_32) + [f.kind] + f.body
  }

  /** The three buffers that `write_frame` hands to one gathered write. */
  function WriteBuffers(f: Frame): seq<seq<Byte>> {
    [WriteU32((1 + |f.body|) % TWO_32), [f.kind], f.body]
  }

  /** Both writers put the same bytes on the link. */
  lemma WritersAgree(f: Frame)
    ensures Flatten(WriteBuffers(f)) == BuildFrame(f)
  {
    hide WriteU32;
    var h := WriteU32((1 + |f.body|) % TWO_32);
    FlattenCons(h, [[f.kind], f.body]);
    FlattenCons([f.kind], [f.body]);
    FlattenOne(f.body);
    assert [h, [f.kind], f.body] == [h] + [[f.kind], f.body];
    assert [[f.kind], f.body] == [[f.kind]] + [f.body];
  }

  /** What `read_frame` does with the bytes a connection delivers before it ends. */
  datatype ReadResult =
    | Got(frame: Frame, rest: seq<Byte>)
    | Nothing          // no header, or a zero length
    | Throws           // the connection ended inside the payload

  function ReadFrame(s: seq<Byte>): (r: ReadResult)
    ensures r.Got? ==> |r.rest| + 5 <= |s|
  {
    if |s| < 4 then Nothing
    else
      var len := ReadU32(s);
      if len < 1 then Nothing
      else if |s| - 4 < len then Throws
      else Got(Frame(s[4], s[5..4 + len]), s[4 + len..])
  }

  predicate Fits(f: Frame) {
    1 + |f.body| < TWO_32
  }

  /**
   A built frame is read back, with the stream continuing behind it, exactly when its body has at most
   4294967294 bytes; one byte more already reads as a zero length.
   */
  lemma CodecExact(f: Frame, rest: seq<Byte>)
    ensures ReadFrame(BuildFrame(f) + rest) == Got(f, rest) <==> Fits(f)
  {
    hide WriteU32, ReadU32, Quad;
    HeaderLength(f, rest);
    Behind(f, rest);
    var s := BuildFrame(f) + rest;
    if Fits(f) {
      assert s[5..4 + (1 + |f.body|)] == s[5..][..|f.body|];
      assert s[4 + (1 + |f.body|)..] == s[5..][|f.body|..];
    }
  }

  /** What follows the header of a built frame. */
  lemma Behind(f: Frame, rest: seq<Byte>)
    ensures var s := BuildFrame(f) + rest;
            s[4] == f.kind && s[5..] == f.body + rest && s[5..][..|f.body|] == f.body && s[5..][|f.body|..] == rest
  {
    hide WriteU32;
  }

  lemma HeaderLength(f: Frame, rest: seq<Byte>)
    ensures ReadU32(BuildFrame(f) + rest) == (1 + |f.body|) % TWO_32
  {
    hide WriteU32, ReadU32;
    var len := (1 + |f.body|) % TWO_32;
    U32RoundTrip(len, [f.kind] + f.body + rest);
    assert BuildFrame(f) + rest == WriteU32(len) + ([f.kind] + f.body + rest);
  }

  /** The bytes of a frame: the length of what follows, most significant byte first, the method, the body. */
  lemma FrameLayout(f: Frame)
    requires Fits(f)
    ensures var b := BuildFrame(f);
            |b| == 5 + |f.body| && Quad(b, 0) == 1 + |f.body| && b[4] == f.kind && b[5..] == f.body
  {
    hide WriteU32, Quad;
    WrittenQuad(1 + |f.body|, [f.kind] + f.body);
    assert BuildFrame(f) == WriteU32(1 + |f.body|) + ([f.kind] + f.body);
  }

  /**
   Exactly what a reader makes of a byte stream: nothing without a header or with a zero length, a throw if
   the stream ends inside the payload, else the method, the body, and the stream behind them.
   */
  lemma ReadExact(s: seq<Byte>)
    ensures ReadFrame(s).Nothing? <==> |s| < 4 || Quad(s, 0) == 0
    ensures ReadFrame(s).Throws? <==> |s| >= 4 && Quad(s, 0) > |s| - 4
    ensures |s| >= 4 && 1 <= Quad(s, 0) <= |s| - 4 ==>
              ReadFrame(s) == Got(Frame(s[4], s[5..4 + Quad(s, 0)]), s[4 + Quad(s, 0)..])
  {
    hide ReadU32, Quad;
    if |s| >= 4 {
      ReadIsQuad(s, 0);
      assert s[0..] == s;
    }
  }

  function BuildAll(frames: seq<Frame>): seq<Byte> {
    if frames == [] then [] else BuildFrame(frames[0]) + BuildAll(frames[1..])
  }

  /** The frames a reader loop gets from a byte stream. */
  function ReadAll(s: seq<Byte>): (frames: seq<Frame>)
    decreases |s|
  {
    var r := ReadFrame(s);
    if r.Got? then [r.frame] + ReadAll(r.rest) else []
  }

  /** Reading what was written gives the same frames, and then nothing. */
  lemma {:induction false} ReadAllBuildAll(frames: seq<Frame>)
    requires forall i :: 0 <= i < |frames| ==> Fits(frames[i])
    ensures ReadAll(BuildAll(frames)) == frames
  {
    hide BuildFrame, ReadFrame;
    if frames == [] {
      NoFrame([]);
    } else {
      CodecExact(frames[0], BuildAll(frames[1..]));
      ReadAllBuildAll(frames[1..]);
      assert [frames[0]] + frames[1..] == frames;
    }
  }

  lemma NoFrame(s: seq<Byte>)
    requires |s| < 4
    ensures ReadFrame(s) == Nothing
  {
  }

  /** A connection that breaks anywhere delivers whole frames only: a prefix of those written. */
  lemma {:induction false} BrokenLink(frames: seq<Frame>, cut: nat)
    requires forall i :: 0 <= i < |frames| ==> Fits(frames[i])
    requires cut <= |BuildAll(frames)|
    ensures ReadAll(BuildAll(frames)[..cut]) <= frames
  {
    hide BuildFrame, ReadFrame;
    if frames == [] {
      NoFrame([]);
      assert BuildAll(frames)[..cut] == [];
    } else {
      var first, rest := BuildFrame(frames[0]), BuildAll(frames[1..]);
      if cut < |first| {
        assert (first + rest)[..cut] == first[..cut];
        PartOfFrame(frames[0], cut);
      } else {
        assert (first + rest)[..cut] == first + rest[..cut - |first|];
        CodecExact(frames[0], rest[..cut - |first|]);
        BrokenLink(frames[1..], cut - |first|);
        assert [frames[0]] + frames[1..] == frames;
      }
    }
  }

  lemma PartOfFrame(f: Frame, cut: nat)
    requires Fits(f) && cut < |BuildFrame(f)|
    ensures !ReadFrame(BuildFrame(f)[..cut]).Got?
  {
    hide WriteU32, ReadU32;
    var s := BuildFrame(f);
    if cut >= 4 {
      HeaderLength(f, []);
      assert s + [] == s;
      ReadU32Prefix(s[..cut], s[cut..]);
      assert s[..cut] + s[cut..] == s;
    }
  }

  /** The reader loop over a whole connection. */
  method ReadFrames(s: seq<Byte>) returns (frames: seq<Frame>)
    ensures frames == ReadAll(s)
  {
    hide ReadFrame;
    frames := [];
    var rest := s;
    while true
      invariant ReadAll(s) == frames + ReadAll(rest)
      decreases |rest|
    {
      var r := ReadFrame(rest);
      if !r.Got? {
        assert frames + [] == frames;
        return;
      }
      Assoc(frames, [r.frame], ReadAll(r.rest));
      frames := frames + [r.frame];
      rest := r.rest;
    }
  }

  /** `build_uuid_data_body`; splitting at 36 bytes recovers both parts. */
  function DataBody(uuid: seq<Byte>, payload: seq<Byte>): (body: seq<Byte>)
    ensures |uuid| == UUID_BYTES ==>
              |body| >= UUID_BYTES && body[..UUID_BYTES] == uuid && body[UUID_BYTES..] == payload
  {
    uuid + payload
  }
}
