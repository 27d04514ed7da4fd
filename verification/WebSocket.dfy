/** The probe's WebSocket frames, after sections 5.2 and 5.3 of RFC 6455. */
module WebSocket {
  import opened Bytes
  import opened Json
  import opened Streams

  const TEXT: Byte := 0x1
  const CLOSE: Byte := 0x8
  const PING: Byte := 0x9
  const PONG: Byte := 0xA

  // The lengths an eight-byte field can hold end here.
  const LONGEST: nat := 0x1_0000_0000_0000_0000

  // ----- Frames on the wire

  /** Masking, which is also unmasking. */
  function Masked(payload: Bytes, mask: Bytes): (masked: Bytes)
    requires |mask| == 4
    ensures |masked| == |payload|
  {
    seq(|payload|, i requires 0 <= i < |payload| => payload[i] ^ mask[i % 4])
  }

  /** The second header byte and the extended length, with the mask bit in `flag`. */
  function LengthBytes(n: nat, flag: Byte): Bytes {
    if n < 126 then [flag | (n as bv8)]
    else if n < 65536 then [flag | 126] + BigEndian(n, 2)
    else [flag | 127] + BigEndian(n, 8)
  }

  /** A frame in the shortest form its payload allows; masked if there is a mask. */
  function Frame(first: Byte, mask: Bytes, payload: Bytes): Bytes
    requires mask == [] || |mask| == 4
  {
    [first] + LengthBytes(|payload|, if mask == [] then 0 else 0x80)
    + mask + if mask == [] then payload else Masked(payload, mask)
  }

  datatype Parse = Message(opcode: Byte, payload: Bytes, rest: Bytes) | Short

  function ExtendedLength(second: Byte): nat {
    if second & 0x7F == 126 then 2 else if second & 0x7F == 127 then 8 else 0
  }

  /** The mask, if there is one, and the payload. */
  function ReceiveBody(opcode: Byte, masked: bool, n: nat, bytes: Bytes): Parse {
    var start := if masked then 4 else 0;
    if |bytes| < start + n then Short else
      var raw := bytes[start..start + n];
      Message(opcode, if masked then Masked(raw, bytes[..4]) else raw, bytes[start + n..])
  }

  /** What receiving one message makes of the bytes to come. */
  function Receive(bytes: Bytes): Parse {
    if |bytes| < 2 then Short else
      var ext := ExtendedLength(bytes[1]);
      if |bytes| < 2 + ext then Short else
        var n := if ext == 0 then (bytes[1] & 0x7F) as nat else Number(bytes[2..2 + ext]);
        ReceiveBody(bytes[0] & 0x0F, bytes[1] & 0x80 != 0, n, bytes[2 + ext..])
  }

  // ----- Receiving undoes sending

  lemma MaskedTwice(payload: Bytes, mask: Bytes)
    requires |mask| == 4
    ensures Masked(Masked(payload, mask), mask) == payload
  {
    forall i | 0 <= i < |payload| ensures Masked(Masked(payload, mask), mask)[i] == payload[i] {
      XorTwice(payload[i], mask[i % 4]);
    }
  }

  lemma XorTwice(a: Byte, b: Byte)
    ensures (a ^ b) ^ b == a
  {
  }

  lemma FlagAndLength(flag: Byte, n: Byte)
    requires flag == 0 || flag == 0x80
    requires n < 0x80
    ensures (flag | n) & 0x7F == n
    ensures ((flag | n) & 0x80 != 0) <==> flag == 0x80
  {
  }

  lemma SmallLength(n: nat)
    requires n < 126
    ensures (n as bv8) as nat == n && (n as bv8) < 126
  {
    ByteOfNumber(n);
  }

  /** The length bytes say whether a mask follows and give the length back. */
  lemma LengthRoundTrip(n: nat, flag: Byte)
    requires flag == 0 || flag == 0x80
    requires n < LONGEST
    ensures var bytes := LengthBytes(n, flag);
            && (bytes[0] & 0x80 != 0 <==> flag == 0x80)
            && |bytes| == 1 + ExtendedLength(bytes[0])
            && n == if ExtendedLength(bytes[0]) == 0 then (bytes[0] & 0x7F) as nat else Number(bytes[1..])
  {
    if n < 126 {
      SmallLength(n);
      FlagAndLength(flag, n as bv8);
    } else if n < 65536 {
      FlagAndLength(flag, 126);
      assert Power(2) == 65536;
      NumberOfBigEndian(n, 2);
    } else {
      FlagAndLength(flag, 127);
      assert Power(8) == LONGEST;
      NumberOfBigEndian(n, 8);
    }
  }

  /** For every payload a length field can hold, every opcode byte, every mask or none: receiving gives
      the low four bits of the first byte and the payload, and leaves what follows untouched. */
  lemma RoundTrip(first: Byte, mask: Bytes, payload: Bytes, tail: Bytes)
    requires mask == [] || |mask| == 4
    requires |payload| < LONGEST
    ensures Receive(Frame(first, mask, payload) + tail) == Message(first & 0x0F, payload, tail)
  {
    hide LengthBytes, ExtendedLength, Masked, Receive;
    var flag: Byte := if mask == [] then 0 else 0x80;
    LengthRoundTrip(|payload|, flag);
    var raw := if mask == [] then payload else Masked(payload, mask);
    if mask != [] {
      MaskedTwice(payload, mask);
    }
    ReceiveParts(first, LengthBytes(|payload|, flag), mask, raw, tail);
    assert [first] + LengthBytes(|payload|, flag) + mask + (raw + tail) == Frame(first, mask, payload) + tail;
  }

  /** Receiving a stream made of a first byte, length bytes, a mask or none, that many bytes, and more. */
  lemma ReceiveParts(first: Byte, length: Bytes, mask: Bytes, raw: Bytes, tail: Bytes)
    requires mask == [] || |mask| == 4
    requires |length| >= 1 && |length| == 1 + ExtendedLength(length[0])
    requires length[0] & 0x80 != 0 <==> mask != []
    requires |raw| == if ExtendedLength(length[0]) == 0 then (length[0] & 0x7F) as nat else Number(length[1..])
    ensures Receive([first] + length + mask + (raw + tail))
            == Message(first & 0x0F, if mask == [] then raw else Masked(raw, mask), tail)
  {
    hide Number, Masked, ExtendedLength, ReceiveBody;
    var bytes := [first] + length + mask + (raw + tail);
    Slices([first], length, mask + (raw + tail));
    assert bytes == [first] + length + (mask + (raw + tail));
    assert bytes[1] == length[0];
    assert bytes[2..1 + |length|] == length[1..];
    BodyParts(first & 0x0F, mask, raw, tail);
  }

  lemma BodyParts(opcode: Byte, mask: Bytes, raw: Bytes, tail: Bytes)
    requires mask == [] || |mask| == 4
    ensures ReceiveBody(opcode, mask != [], |raw|, mask + (raw + tail))
            == Message(opcode, if mask == [] then raw else Masked(raw, mask), tail)
  {
    hide Masked;
    Slices(mask, raw, tail);
    assert mask + (raw + tail) == mask + raw + tail;
  }

  /** A whole message on the wire, in whatever length form: a first byte, length bytes, a mask if the mask bit is
      set, and as many bytes as the length says. */
  ghost predicate Carries(bytes: Bytes, opcode: Byte, payload: Bytes, rest: Bytes) {
    exists first: Byte, length: Bytes, mask: Bytes, raw: Bytes ::
      && bytes == [first] + length + mask + (raw + rest) && opcode == first & 0x0F
      && IsLength(length, mask, |raw|) && payload == if mask == [] then raw else Masked(raw, mask)
  }

  /** One byte with the mask bit and the length, or 126 and two bytes, or 127 and eight. */
  ghost predicate IsLength(length: Bytes, mask: Bytes, n: nat) {
    && length != [] && (mask == [] || |mask| == 4) && (length[0] & 0x80 != 0 <==> mask != [])
    && var low := length[0] & 0x7F;
       || (low < 126 && |length| == 1 && n == low as nat)
       || (low == 126 && |length| == 3 && n == Number(length[1..]))
       || (low == 127 && |length| == 9 && n == Number(length[1..]))
  }

  lemma LowBits(b: Byte)
    ensures b & 0x7F < 126 || b & 0x7F == 126 || b & 0x7F == 127
  {
  }

  lemma BodyCarries(opcode: Byte, masked: bool, n: nat, bytes: Bytes) returns (mask: Bytes, raw: Bytes)
    requires ReceiveBody(opcode, masked, n, bytes).Message?
    ensures mask == [] || |mask| == 4
    ensures masked <==> mask != []
    ensures var parse := ReceiveBody(opcode, masked, n, bytes);
            && |raw| == n && bytes == mask + (raw + parse.rest) && parse.opcode == opcode
            && parse.payload == if mask == [] then raw else Masked(raw, mask)
  {
    hide Masked;
    mask := if masked then bytes[..4] else [];
    raw := bytes[|mask|..|mask| + n];
  }

  lemma LengthCarries(bytes: Bytes, mask: Bytes)
    requires |bytes| >= 2 && |bytes| >= 2 + ExtendedLength(bytes[1])
    requires (mask == [] || |mask| == 4) && (bytes[1] & 0x80 != 0 <==> mask != [])
    ensures var ext := ExtendedLength(bytes[1]);
            IsLength(bytes[1..2 + ext], mask, if ext == 0 then (bytes[1] & 0x7F) as nat else Number(bytes[2..2 + ext]))
  {
    hide Number;
    LowBits(bytes[1]);
    var ext := ExtendedLength(bytes[1]);
    assert bytes[1..2 + ext][1..] == bytes[2..2 + ext];
  }

  lemma ReceivedCarries(bytes: Bytes)
    requires Receive(bytes).Message?
    ensures var parse := Receive(bytes); Carries(bytes, parse.opcode, parse.payload, parse.rest)
  {
    hide Masked, Number, IsLength, ReceiveBody, ExtendedLength;
    var parse, ext := Receive(bytes), ExtendedLength(bytes[1]);
    var n := if ext == 0 then (bytes[1] & 0x7F) as nat else Number(bytes[2..2 + ext]);
    var mask, raw := BodyCarries(bytes[0] & 0x0F, bytes[1] & 0x80 != 0, n, bytes[2 + ext..]);
    LengthCarries(bytes, mask);
    var length := bytes[1..2 + ext];
    assert [bytes[0]] + length + mask + (raw + parse.rest) == [bytes[0]] + length + (mask + (raw + parse.rest));
    assert bytes == [bytes[0]] + length + bytes[2 + ext..];
  }

  lemma LengthForm(length: Bytes, mask: Bytes, n: nat)
    requires IsLength(length, mask, n)
    ensures length != [] && |length| == 1 + ExtendedLength(length[0])
    ensures n == if ExtendedLength(length[0]) == 0 then (length[0] & 0x7F) as nat else Number(length[1..])
  {
    hide Number;
  }

  /** A message is received exactly if the bytes begin with one, in the shortest length form or not. */
  lemma ReceiveIff(bytes: Bytes, opcode: Byte, payload: Bytes, rest: Bytes)
    ensures Receive(bytes) == Message(opcode, payload, rest) <==> Carries(bytes, opcode, payload, rest)
  {
    hide Masked, Number, Receive, ExtendedLength;
    if Receive(bytes).Message? {
      ReceivedCarries(bytes);
    }
    if Carries(bytes, opcode, payload, rest) {
      var first: Byte, length: Bytes, mask: Bytes, raw: Bytes :|
        && bytes == [first] + length + mask + (raw + rest) && opcode == first & 0x0F
        && IsLength(length, mask, |raw|) && payload == if mask == [] then raw else Masked(raw, mask);
      LengthForm(length, mask, |raw|);
      ReceiveParts(first, length, mask, raw, rest);
    }
  }

  /** The opcode survives beside the final-fragment bit. */
  lemma OpcodeRoundTrip(opcode: Byte)
    requires opcode < 16
    ensures (0x80 | opcode) & 0x0F == opcode
  {
  }

  /** No frame that is received as this payload, masked or not as this one is, is shorter. */
  lemma Shortest(bytes: Bytes, first: Byte, mask: Bytes)
    requires Receive(bytes).Message?
    requires mask == [] || |mask| == 4
    requires mask != [] <==> bytes[1] & 0x80 != 0
    ensures |Frame(first, mask, Receive(bytes).payload)| <= |bytes| - |Receive(bytes).rest|
  {
    var ext, n := ExtendedLength(bytes[1]), |Receive(bytes).payload|;
    if ext == 0 {
      SevenBits(bytes[1]);
    } else if ext == 2 {
      BigEndianOfNumber(bytes[2..4]);
      assert Power(2) == 65536;
    }
  }

  lemma SevenBits(b: Byte)
    requires ExtendedLength(b) == 0
    ensures (b & 0x7F) as nat < 126
  {
  }

  // ----- Single bytes on the wire

  /** Where each payload byte of a frame stands, and what it has become under the mask. */
  lemma PayloadOnTheWire(first: Byte, mask: Bytes, payload: Bytes, i: nat)
    requires mask == [] || |mask| == 4
    requires i < |payload| < LONGEST
    ensures var start := (if |payload| < 126 then 2 else if |payload| < 65536 then 4 else 10) + |mask|;
            && |Frame(first, mask, payload)| == start + |payload|
            && Frame(first, mask, payload)[start - |mask|..start] == mask
            && Frame(first, mask, payload)[start + i] == if mask == [] then payload[i] else payload[i] ^ mask[i % 4]
  {
    hide Power, Number;
    var length := LengthBytes(|payload|, if mask == [] then 0 else 0x80);
    Slices([first] + length, mask, if mask == [] then payload else Masked(payload, mask));
  }

  const HELLO: Bytes := [0x48, 0x65, 0x6C, 0x6C, 0x6F]

  /** The frames of section 5.7 of RFC 6455 that carry "Hello", byte for byte. */
  lemma HelloFrames()
    ensures Frame(0x81, [], HELLO) == [0x81, 0x05, 0x48, 0x65, 0x6C, 0x6C, 0x6F]
    ensures Frame(0x81, [0x37, 0xFA, 0x21, 0x3D], HELLO)
            == [0x81, 0x85, 0x37, 0xFA, 0x21, 0x3D, 0x7F, 0x9F, 0x4D, 0x51, 0x58]
    ensures Frame(0x89, [], HELLO) == [0x89, 0x05, 0x48, 0x65, 0x6C, 0x6C, 0x6F]
    ensures Frame(0x8A, [0x37, 0xFA, 0x21, 0x3D], HELLO)
            == [0x8A, 0x85, 0x37, 0xFA, 0x21, 0x3D, 0x7F, 0x9F, 0x4D, 0x51, 0x58]
  {
    var mask := [0x37, 0xFA, 0x21, 0x3D];
    assert Masked(HELLO, mask) == [0x7F, 0x9F, 0x4D, 0x51, 0x58];
  }

  lemma FiveZeros()
    ensures BigEndian(0, 5) == [0x00, 0x00, 0x00, 0x00, 0x00]
  {
    hide BigEndian;
    NoBytes(0);
    LastOfBigEndian(0, 0x00, 0);
    LastOfBigEndian(0, 0x00, 1);
    LastOfBigEndian(0, 0x00, 2);
    LastOfBigEndian(0, 0x00, 3);
    LastOfBigEndian(0, 0x00, 4);
  }

  lemma ShortNumber()
    ensures BigEndian(256, 2) == [0x01, 0x00]
  {
    hide BigEndian;
    NoBytes(0);
    LastOfBigEndian(0, 0x01, 0);
    LastOfBigEndian(1, 0x00, 1);
  }

  lemma LongNumber()
    ensures BigEndian(65536, 8) == [0x00, 0x00, 0x00, 0x00, 0x00, 0x01, 0x00, 0x00]
  {
    hide BigEndian;
    FiveZeros();
    LastOfBigEndian(0, 0x01, 5);
    LastOfBigEndian(1, 0x00, 6);
    LastOfBigEndian(256, 0x00, 7);
  }

  /** The headers of the long unmasked frames of section 5.7 of RFC 6455: 256 bytes, and 64 KiB. */
  lemma LongHeaders()
    ensures LengthBytes(256, 0) == [0x7E, 0x01, 0x00]
    ensures LengthBytes(65536, 0) == [0x7F, 0x00, 0x00, 0x00, 0x00, 0x00, 0x01, 0x00, 0x00]
  {
    hide BigEndian;
    ShortNumber();
    LongNumber();
  }

  // ----- The probe's own sender and receiver

  /** A masked final frame; a payload too long for eight length bytes cannot be packed. */
  method MaskFrame(payload: Bytes, opcode: Byte, mask: Bytes) returns (frame: Option<Bytes>)
    requires |mask| == 4
    ensures frame == if |payload| < LONGEST then Some(Frame(0x80 | opcode, mask, payload)) else None
  {
    var masked: Bytes := [];
    for i := 0 to |payload|
      invariant masked == Masked(payload, mask)[..i]
    {
      masked := masked + [payload[i] ^ mask[i % 4]];
    }
    var header := [0x80 | opcode];
    var n := |payload|;
    if n < 126 {
      header := header + [0x80 | (n as bv8)];
    } else if n < 65536 {
      header := header + [0x80 | 126];
      header := header + BigEndian(n, 2);
    } else {
      if n >= LONGEST {
        return None;
      }
      header := header + [0x80 | 127];
      header := header + BigEndian(n, 8);
    }
    assert header == [0x80 | opcode] + LengthBytes(n, 0x80);
    assert masked == Masked(payload, mask);
    frame := Some(header + mask + masked);
  }

  /** A socket's two directions, with the bytes read from it that nobody has asked for yet. */
  class Conn {
    const sock: Reader
    const out: Writer
    var buf: Bytes

    constructor (sock: Reader, out: Writer)
      ensures this.sock == sock && this.out == out && buf == []
    {
      this.sock, this.out, buf := sock, out, [];
    }

    ghost function Incoming(): Bytes
      reads this, sock
    {
      buf + sock.Rest()
    }

    /** Exactly `n` bytes, whatever sizes the socket hands over; more may be read and is kept. */
    method RecvExact(n: nat) returns (read: Read)
      modifies this, sock
      ensures |old(Incoming())| >= n ==> read == Got(old(Incoming())[..n]) && Incoming() == old(Incoming())[n..]
      ensures |old(Incoming())| < n ==> read == Failed(sock.ending) && Incoming() == old(Incoming())
    {
      while |buf| < n
        invariant Incoming() == old(Incoming())
        decreases n - |buf|
      {
        var wanted := if n - |buf| > 4096 then n - |buf| else 4096;
        var chunk := sock.Read(wanted);
        if chunk.Failed? || chunk.bytes == [] {
          return Failed(sock.ending);
        }
        assert buf + chunk.bytes + sock.Rest() == buf + (chunk.bytes + sock.Rest());
        buf := buf + chunk.bytes;
      }
      read := Got(buf[..n]);
      buf := buf[n..];
    }
  }

  datatype Received = Received(opcode: Byte, payload: Bytes) | Lost(ending: Ending)

  /** One whole message, or the error that ends the connection. */
  method RecvMessage(conn: Conn) returns (received: Received)
    modifies conn, conn.sock
    ensures var parse := Receive(old(conn.Incoming()));
            && (parse.Message? ==> received == Received.Received(parse.opcode, parse.payload) && conn.Incoming() == parse.rest)
            && (parse.Short? ==> received == Lost(conn.sock.ending))
  {
    hide Number, ReceiveBody;
    ghost var bytes := conn.Incoming();
    var hdr := conn.RecvExact(2);
    if hdr.Failed? {
      return Lost(hdr.ending);
    }
    var n := (hdr.bytes[1] & 0x7F) as nat;
    var extended := RecvLength(conn, hdr.bytes[1]);
    if extended.Failed? {
      return Lost(extended.ending);
    }
    SliceOfRest(bytes, 2, |extended.bytes|);
    if extended.bytes != [] {
      n := Number(extended.bytes);
    }
    received := RecvBody(conn, hdr.bytes[0] & 0x0F, hdr.bytes[1] & 0x80 != 0, n);
  }

  method RecvBody(conn: Conn, opcode: Byte, masked: bool, n: nat) returns (received: Received)
    modifies conn, conn.sock
    ensures var parse := ReceiveBody(opcode, masked, n, old(conn.Incoming()));
            && (parse.Message? ==> received == Received.Received(parse.opcode, parse.payload) && conn.Incoming() == parse.rest)
            && (parse.Short? ==> received == Lost(conn.sock.ending))
  {
    hide Masked;
    ghost var bytes := conn.Incoming();
    var mask: Bytes := [];
    if masked {
      var four := conn.RecvExact(4);
      if four.Failed? {
        return Lost(four.ending);
      }
      mask := four.bytes;
    }
    var payload := conn.RecvExact(n);
    if payload.Failed? {
      return Lost(payload.ending);
    }
    SliceOfRest(bytes, |mask|, n);
    received := Received.Received(opcode, if masked then Masked(payload.bytes, mask) else payload.bytes);
  }

  /** The extended length after a second byte that announces one; nothing is read after any other. */
  method RecvLength(conn: Conn, second: Byte) returns (extended: Read)
    modifies conn, conn.sock
    ensures var ext := ExtendedLength(second);
            && (|old(conn.Incoming())| >= ext ==>
                  extended == Got(old(conn.Incoming())[..ext]) && conn.Incoming() == old(conn.Incoming())[ext..])
            && (|old(conn.Incoming())| < ext ==> extended == Failed(conn.sock.ending))
  {
    if second & 0x7F == 126 {
      extended := conn.RecvExact(2);
    } else if second & 0x7F == 127 {
      extended := conn.RecvExact(8);
    } else {
      extended := Got([]);
    }
  }
}
