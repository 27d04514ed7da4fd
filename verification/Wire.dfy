/** The leader's frames: four bytes of length, then that many bytes. */
module Wire {
  import opened Bytes
  import opened Streams

  const MAX_FRAME: nat := 64 * 1024 * 1024

  datatype WireError = Io | TooLarge(len: nat)

  datatype Result<+T> = Ok(value: T) | Err(error: WireError)

  function Encode(payload: Bytes): Bytes {
    BigEndian(|payload|, 4) + payload
  }

  datatype Parse = Frame(payload: Bytes, rest: Bytes) | Oversized(len: nat) | Truncated

  /** What one read of a frame makes of the bytes to come. */
  function Decode(bytes: Bytes): Parse {
    if |bytes| < 4 then Truncated else
      var len := Number(bytes[..4]);
      if len > MAX_FRAME then Oversized(len)
      else if |bytes| - 4 < len then Truncated
      else Frame(bytes[4..4 + len], bytes[4 + len..])
  }

  method WriteFrame(w: Writer, json: Bytes) returns (result: Result<()>)
    modifies w
    ensures |json| > MAX_FRAME ==> result == Err(TooLarge(|json|)) && w.written == old(w.written)
    ensures |json| <= MAX_FRAME && old(w.room) >= |Encode(json)| ==>
              result == Ok(()) && w.written == old(w.written) + Encode(json)
    ensures |json| <= MAX_FRAME && old(w.room) < |Encode(json)| ==>
              result == Err(Io) && w.written == old(w.written) + Encode(json)[..old(w.room)]
  {
    hide BigEndian;
    if |json| > MAX_FRAME {
      return Err(TooLarge(|json|));
    }
    ghost var bytes, room := Encode(json), w.room;
    var header := w.WriteAll(BigEndian(|json|, 4));
    if header.NotWritten? {
      assert bytes[..room] == BigEndian(|json|, 4)[..room];
      return Err(Io);
    }
    var body := w.WriteAll(json);
    if body.NotWritten? {
      assert bytes[..room] == BigEndian(|json|, 4) + json[..room - 4];
      return Err(Io);
    }
    result := Ok(());
  }

  method ReadFrame(r: Reader) returns (result: Result<Bytes>)
    modifies r
    ensures var parse := Decode(old(r.Rest()));
            && (parse.Frame? ==> result == Ok(parse.payload) && r.Rest() == parse.rest)
            && (parse.Oversized? ==> result == Err(TooLarge(parse.len)) && r.Rest() == old(r.Rest())[4..])
            && (parse.Truncated? ==> result == Err(Io) && r.Rest() == [])
    ensures result.Ok? ==> |r.Rest()| < |old(r.Rest())|
  {
    hide Number;
    ghost var bytes := r.Rest();
    var header := r.ReadExact(4);
    if header.Failed? {
      return Err(Io);
    }
    var len := Number(header.bytes);
    if len > MAX_FRAME {
      return Err(TooLarge(len));
    }
    var body := r.ReadExact(len);
    if body.Failed? {
      return Err(Io);
    }
    assert bytes[4..][..len] == bytes[4..4 + len] && bytes[4..][len..] == bytes[4 + len..];
    result := Ok(body.bytes);
  }

  /** Frame after frame, until one cannot be read. */
  method ReadFrames(r: Reader) returns (frames: seq<Bytes>)
    modifies r
    ensures frames == Frames(old(r.Rest()))
  {
    hide Decode;
    frames := [];
    var open := true;
    while open
      invariant Frames(old(r.Rest())) == frames + if open then Frames(r.Rest()) else []
      decreases open, |r.Rest()|
    {
      var frame := ReadFrame(r);
      if frame.Ok? {
        frames := frames + [frame.value];
      } else {
        open := false;
      }
    }
  }

  function Frames(bytes: Bytes): seq<Bytes>
    decreases |bytes|
  {
    var parse := Decode(bytes);
    if parse.Frame? then [parse.payload] + Frames(parse.rest) else []
  }

  function EncodeAll(payloads: seq<Bytes>): Bytes {
    if payloads == [] then [] else Encode(payloads[0]) + EncodeAll(payloads[1..])
  }

  ghost predicate AllFit(payloads: seq<Bytes>) {
    forall k :: 0 <= k < |payloads| ==> |payloads[k]| <= MAX_FRAME
  }

  // ----- Decoding undoes encoding

  lemma HeaderOf(n: nat)
    requires n < 0x1_0000_0000
    ensures Number(BigEndian(n, 4)) == n
  {
    assert Power(4) == 0x1_0000_0000;
    NumberOfBigEndian(n, 4);
  }

  /** A stream decodes to a frame exactly when it begins with that frame's encoding. */
  lemma DecodesIff(bytes: Bytes, payload: Bytes, rest: Bytes)
    ensures Decode(bytes) == Frame(payload, rest) <==> |payload| <= MAX_FRAME && bytes == Encode(payload) + rest
  {
    if |payload| <= MAX_FRAME && bytes == Encode(payload) + rest {
      HeaderOf(|payload|);
      assert bytes[..4] == BigEndian(|payload|, 4);
      assert bytes[4..4 + |payload|] == payload && bytes[4 + |payload|..] == rest;
    }
    if Decode(bytes) == Frame(payload, rest) {
      BigEndianOfNumber(bytes[..4]);
      assert bytes == bytes[..4] + payload + rest;
    }
  }

  /** A frame on the wire: its length in four bytes, the most significant first, and then its payload. */
  lemma FrameOnTheWire(payload: Bytes)
    requires |payload| <= MAX_FRAME
    ensures var bytes := Encode(payload);
            && |bytes| == 4 + |payload| && bytes[4..] == payload
            && |payload| == 0x100_0000 * bytes[0] as nat + 0x1_0000 * bytes[1] as nat + 0x100 * bytes[2] as nat
                            + bytes[3] as nat
  {
    hide Number, BigEndian;
    var bytes := Encode(payload);
    HeaderOf(|payload|);
    assert BigEndian(|payload|, 4) == [bytes[0], bytes[1], bytes[2], bytes[3]];
    TwoAndFourBytes(bytes[0], bytes[1], bytes[2], bytes[3]);
  }

  /** A length over 64 MiB is refused by the reader, whatever follows it. */
  lemma OversizedIff(a: Byte, b: Byte, c: Byte, d: Byte, rest: Bytes)
    ensures var len := 0x100_0000 * a as nat + 0x1_0000 * b as nat + 0x100 * c as nat + d as nat;
            && (len > 67_108_864 ==> Decode([a, b, c, d] + rest) == Oversized(len))
            && (len <= 67_108_864 ==> !Decode([a, b, c, d] + rest).Oversized?)
  {
    hide Number;
    TwoAndFourBytes(a, b, c, d);
    assert ([a, b, c, d] + rest)[..4] == [a, b, c, d];
  }

  /** A frame cut short anywhere does not decode. */
  lemma CutFrameIsTruncated(payload: Bytes, n: nat)
    requires |payload| <= MAX_FRAME && n < |Encode(payload)|
    ensures Decode(Encode(payload)[..n]) == Truncated
  {
    if n >= 4 {
      HeaderOf(|payload|);
      assert Encode(payload)[..n][..4] == BigEndian(|payload|, 4);
    }
  }

  lemma NothingToDecode()
    ensures Decode([]) == Truncated
  {
  }

  /** However much of a stream of frames arrives, what is read is a prefix of what was sent: all the
      frames that arrived whole, and nothing else. */
  lemma {:induction false} FramesOfPrefix(payloads: seq<Bytes>, n: nat)
    requires AllFit(payloads) && n <= |EncodeAll(payloads)|
    ensures var frames := Frames(EncodeAll(payloads)[..n]);
            && frames <= payloads
            && |EncodeAll(payloads[..|frames|])| <= n
            && (|frames| < |payloads| ==> n < |EncodeAll(payloads[..|frames| + 1])|)
  {
    hide Decode, Encode;
    NothingToDecode();
    if payloads != [] {
      var first, others := payloads[0], payloads[1..];
      var bytes := EncodeAll(payloads)[..n];
      if n < |Encode(first)| {
        CutFrameIsTruncated(first, n);
        assert bytes == Encode(first)[..n];
        assert payloads[..1] == [first] && EncodeAll([first]) == Encode(first);
      } else {
        var left := n - |Encode(first)|;
        assert bytes == Encode(first) + EncodeAll(others)[..left];
        DecodesIff(bytes, first, EncodeAll(others)[..left]);
        FramesOfPrefix(others, left);
        var k := |Frames(EncodeAll(others)[..left])|;
        assert Frames(bytes) == [first] + Frames(EncodeAll(others)[..left]);
        assert payloads == [first] + others;
        assert payloads[..k + 1] == [first] + others[..k];
        if k < |others| {
          assert payloads[..k + 2] == [first] + others[..k + 1];
        }
      }
    }
  }

  /** All of it arrived: exactly what was sent is read. */
  lemma {:induction false} FramesRoundTrip(payloads: seq<Bytes>)
    requires AllFit(payloads)
    ensures Frames(EncodeAll(payloads)) == payloads
  {
    if payloads != [] {
      DecodesIff(EncodeAll(payloads), payloads[0], EncodeAll(payloads[1..]));
      FramesRoundTrip(payloads[1..]);
    }
  }
}
