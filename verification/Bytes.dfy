/** Bytes, and numbers written as a fixed count of them, most significant first. */
module Bytes {
  type Byte = bv8
  type Bytes = seq<Byte>

  function Power(width: nat): (p: nat)
    ensures p > 0
  {
    if width == 0 then 1 else 256 * Power(width - 1)
  }

  /** The `width` lowest bytes of a number; what does not fit is cut off. */
  function BigEndian(n: nat, width: nat): (bytes: Bytes)
    ensures |bytes| == width
  {
    if width == 0 then [] else BigEndian(n / 256, width - 1) + [(n % 256) as bv8]
  }

  function Number(bytes: Bytes): nat {
    if bytes == [] then 0 else 256 * Number(bytes[..|bytes| - 1]) + bytes[|bytes| - 1] as nat
  }

  lemma NextByte(b: Byte)
    requires b as nat < 255
    ensures (b + 1) as nat == b as nat + 1
  {
  }

  lemma NumberOfByte(b: Byte)
    ensures (b as nat) as bv8 == b
  {
  }

  lemma {:induction false} ByteFor(n: nat) returns (b: Byte)
    requires n < 256
    ensures b as nat == n
  {
    if n == 0 {
      b := 0;
    } else {
      var before := ByteFor(n - 1);
      NextByte(before);
      b := before + 1;
    }
  }

  lemma ByteOfNumber(n: nat)
    requires n < 256
    ensures (n as bv8) as nat == n
  {
    var b := ByteFor(n);
    NumberOfByte(b);
  }

  lemma {:induction false} NumberOfBigEndian(n: nat, width: nat)
    requires n < Power(width)
    ensures Number(BigEndian(n, width)) == n
  {
    if width > 0 {
      NumberOfBigEndian(n / 256, width - 1);
      ByteOfNumber(n % 256);
      var bytes := BigEndian(n, width);
      assert bytes[..width - 1] == BigEndian(n / 256, width - 1);
    }
  }

  lemma LastDigit(high: nat, low: nat)
    requires low < 256
    ensures (256 * high + low) / 256 == high && (256 * high + low) % 256 == low
  {
  }

  /** The first byte is the most significant one. */
  lemma {:induction false} MostSignificantFirst(first: Byte, others: Bytes)
    ensures Number([first] + others) == first as nat * Power(|others|) + Number(others)
  {
    var bytes := [first] + others;
    if others == [] {
      assert bytes[..0] == [];
    } else {
      var front, last := others[..|others| - 1], others[|others| - 1];
      MostSignificantFirst(first, front);
      assert bytes[..|bytes| - 1] == [first] + front;
      Distributes(first as nat, Power(|front|));
    }
  }

  lemma Distributes(a: nat, p: nat)
    ensures 256 * (a * p) == a * (256 * p)
  {
  }

  /** The numbers of two and of four bytes, written out. */
  lemma TwoAndFourBytes(a: Byte, b: Byte, c: Byte, d: Byte)
    ensures Number([a, b]) == 0x100 * a as nat + b as nat
    ensures Number([a, b, c, d]) == 0x100_0000 * a as nat + 0x1_0000 * b as nat + 0x100 * c as nat + d as nat
  {
    NoBytes(0);
    assert [a, b][..1] == [a] && [a][..0] == [];
    assert [a, b, c, d][..3] == [a, b, c] && [a, b, c][..2] == [a, b];
  }

  // The two functions, one byte at a time.

  lemma NoBytes(n: nat)
    ensures Number([]) == 0 && Power(0) == 1 && BigEndian(n, 0) == []
  {
  }

  lemma LastByte(bytes: Bytes)
    requires bytes != []
    ensures Number(bytes) == 256 * Number(bytes[..|bytes| - 1]) + bytes[|bytes| - 1] as nat
    ensures Power(|bytes|) == 256 * Power(|bytes| - 1)
  {
  }

  lemma LastOfBigEndian(high: nat, low: Byte, width: nat)
    ensures BigEndian(256 * high + low as nat, width + 1) == BigEndian(high, width) + [low]
  {
    hide Number, Power;
    LastDigit(high, low as nat);
    NumberOfByte(low);
  }

  lemma {:induction false} BigEndianOfNumber(bytes: Bytes)
    ensures Number(bytes) < Power(|bytes|)
    ensures BigEndian(Number(bytes), |bytes|) == bytes
  {
    hide Number, Power, BigEndian;
    if bytes == [] {
      NoBytes(0);
    } else {
      var front, last := bytes[..|bytes| - 1], bytes[|bytes| - 1];
      BigEndianOfNumber(front);
      LastByte(bytes);
      LastOfBigEndian(Number(front), last, |front|);
      assert bytes == front + [last];
    }
  }

  /** Bytes taken off the front of what is left of a stream extend what was taken before. */
  lemma TakeMore(data: Bytes, taken: nat, chunk: Bytes, rest: Bytes, k: nat)
    requires taken <= |data| && data[taken..] == chunk + rest && k <= |chunk|
    ensures data[..taken] + chunk[..k] == data[..taken + k]
    ensures rest == data[taken + |chunk|..]
  {
    assert data == data[..taken] + (chunk + rest);
  }

  lemma Slices(a: Bytes, b: Bytes, c: Bytes)
    ensures var s := a + b + c; s[..|a|] == a && s[|a|..|a| + |b|] == b && s[|a| + |b|..] == c
  {
  }

  lemma SliceOfRest(bytes: Bytes, at: nat, n: nat)
    requires at + n <= |bytes|
    ensures bytes[at..][..n] == bytes[at..at + n] && bytes[at..][n..] == bytes[at + n..]
  {
  }
}
