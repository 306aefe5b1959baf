/** Fixed-width unsigned integers as bytes, in both byte orders. */
module ByteCodec {
  type Byte = b: int | 0 <= b < 256

  type Bytes = seq<Byte>

  function Power(width: nat): nat {
    if width == 0 then 1 else 256 * Power(width - 1)
  }

  function LittleEndian(n: nat, width: nat): (s: Bytes)
    ensures |s| == width
  {
    if width == 0 then [] else [n % 256] + LittleEndian(n / 256, width - 1)
  }

  function FromLittleEndian(s: Bytes): nat {
    if s == [] then 0 else s[0] + 256 * FromLittleEndian(s[1..])
  }

  function BigEndian(n: nat, width: nat): (s: Bytes)
    ensures |s| == width
  {
    if width == 0 then [] else BigEndian(n / 256, width - 1) + [n % 256]
  }

  function FromBigEndian(s: Bytes): nat {
    if s == [] then 0 else 256 * FromBigEndian(s[..|s| - 1]) + s[|s| - 1]
  }

  // The bytes of a tag in ASCII.
  function Ascii(tag: string): (s: Bytes)
    ensures |s| == |tag|
  {
    if tag == "" then [] else [if tag[0] < 128 as char then tag[0] as int else 0] + Ascii(tag[1..])
  }

  // A number that fits its width comes back.
  lemma {:induction false} LittleEndianRoundTrip(n: nat, width: nat)
    requires n < Power(width)
    ensures FromLittleEndian(LittleEndian(n, width)) == n
  {
    if width > 0 {
      LittleEndianRoundTrip(n / 256, width - 1);
      assert LittleEndian(n, width)[1..] == LittleEndian(n / 256, width - 1);
    }
  }

  lemma {:induction false} BigEndianRoundTrip(n: nat, width: nat)
    requires n < Power(width)
    ensures FromBigEndian(BigEndian(n, width)) == n
  {
    if width > 0 {
      BigEndianRoundTrip(n / 256, width - 1);
      assert BigEndian(n, width)[..width - 1] == BigEndian(n / 256, width - 1);
    }
  }

  // Any bytes come back, and stand for a number that fits.
  lemma {:induction false} LittleEndianIsExact(s: Bytes)
    ensures FromLittleEndian(s) < Power(|s|) && LittleEndian(FromLittleEndian(s), |s|) == s
  {
    if s != [] {
      LittleEndianIsExact(s[1..]);
      LowDigit(FromLittleEndian(s[1..]), s[0]);
      assert s == [s[0]] + s[1..];
    }
  }

  lemma {:induction false} BigEndianIsExact(s: Bytes)
    ensures FromBigEndian(s) < Power(|s|) && BigEndian(FromBigEndian(s), |s|) == s
  {
    if s != [] {
      BigEndianIsExact(s[..|s| - 1]);
      LowDigit(FromBigEndian(s[..|s| - 1]), s[|s| - 1]);
      assert s == s[..|s| - 1] + [s[|s| - 1]];
    }
  }

  // What tells the two orders apart: the lowest byte stands first in one and last in the other,
  lemma {:induction false} LowestByte(n: nat, width: nat)
    requires width > 0
    ensures LittleEndian(n, width)[0] == n % 256 && BigEndian(n, width)[width - 1] == n % 256
  {
  }

  // and a byte counts 256^k when k bytes stand before it in one, behind it in the other.
  lemma {:induction false} LittleEndianWeight(s: Bytes, k: nat, b: Byte)
    requires k < |s|
    ensures FromLittleEndian(s[k := b]) - FromLittleEndian(s) == (b - s[k]) * Power(k)
    decreases k
  {
    if k > 0 {
      LittleEndianWeight(s[1..], k - 1, b);
      assert s[k := b][1..] == s[1..][k - 1 := b];
      Scaled(b - s[k], Power(k - 1));
    } else {
      assert s[0 := b][1..] == s[1..];
    }
  }

  lemma {:induction false} BigEndianWeight(s: Bytes, k: nat, b: Byte)
    requires k < |s|
    ensures FromBigEndian(s[|s| - 1 - k := b]) - FromBigEndian(s) == (b - s[|s| - 1 - k]) * Power(k)
    decreases k
  {
    var at, front := |s| - 1 - k, s[..|s| - 1];
    if k > 0 {
      BigEndianWeight(front, k - 1, b);
      assert s[at := b][..|s| - 1] == front[at := b];
      Scaled(b - s[at], Power(k - 1));
    } else {
      assert s[at := b][..|s| - 1] == front;
    }
  }

  lemma {:induction false} Scaled(difference: int, power: nat)
    ensures difference * (256 * power) == 256 * (difference * power)
  {
  }

  lemma {:induction false} LowDigit(high: nat, low: Byte)
    ensures (256 * high + low) % 256 == low && (256 * high + low) / 256 == high
  {
  }

  lemma {:induction false} Powers()
    ensures Power(2) == 0x1_0000 && Power(4) == 0x1_0000_0000 && Power(8) == 0x1_0000_0000_0000_0000
  {
    assert Power(2) == 0x1_0000;
    assert Power(4) == 256 * (256 * Power(2));
    assert Power(6) == 256 * (256 * Power(4));
    assert Power(8) == 256 * (256 * Power(6));
  }
}
