/** What a byte length counts: the bytes of the UTF-8 encoding (section 3 of RFC 3629), which
    can be read back. */
module Utf8 {
  import opened Text

  /** The bytes of one code point: its lowest bits six by six from the last byte, the rest
      in the lead byte. */
  function Bytes(n: nat): (b: seq<int>)
    ensures |b| == if n < 0x80 then 1 else if n < 0x800 then 2 else if n < 0x10000 then 3 else 4
  {
    var q := n / 0x40;
    if n < 0x80 then [n]
    else if n < 0x800 then [0xc0 + q, 0x80 + n % 0x40]
    else if n < 0x10000 then [0xe0 + q / 0x40, 0x80 + q % 0x40, 0x80 + n % 0x40]
    else [0xf0 + q / 0x40 / 0x40, 0x80 + q / 0x40 % 0x40, 0x80 + q % 0x40, 0x80 + n % 0x40]
  }

  function Encoded(s: string): seq<int> {
    if s == "" then [] else Bytes(s[0] as int) + Encoded(s[1..])
  }

  /** How many bytes a sequence has that starts with `lead`. */
  function Width(lead: int): (n: nat)
    ensures 1 <= n <= 4
  {
    if lead < 0x80 then 1 else if lead < 0xe0 then 2 else if lead < 0xf0 then 3 else 4
  }

  /** The code point that a sequence of bytes stands for: the lead byte gives its first bits
      and each following byte six more. */
  function CodePoint(b: seq<int>): int
    requires 1 <= |b| <= 4
  {
    if |b| == 1 then b[0]
    else if |b| == 2 then (b[0] - 0xc0) * 0x40 + (b[1] - 0x80)
    else if |b| == 3 then ((b[0] - 0xe0) * 0x40 + (b[1] - 0x80)) * 0x40 + (b[2] - 0x80)
    else (((b[0] - 0xf0) * 0x40 + (b[1] - 0x80)) * 0x40 + (b[2] - 0x80)) * 0x40 + (b[3] - 0x80)
  }

  function Decoded(b: seq<int>): seq<int> {
    if b == [] || |b| < Width(b[0]) then []
    else [CodePoint(b[..Width(b[0])])] + Decoded(b[Width(b[0])..])
  }

  function CodePoints(s: string): seq<int> { seq(|s|, i requires 0 <= i < |s| => s[i] as int) }

  lemma ReadsBack(n: nat)
    requires n < 0x110000
    ensures |Bytes(n)| == Width(Bytes(n)[0]) && CodePoint(Bytes(n)) == n
    ensures forall i :: 0 <= i < |Bytes(n)| ==> 0 <= Bytes(n)[i] < 0x100
  {
    SixBits(n);
    SixBits(n / 0x40);
    SixBits(n / 0x40 / 0x40);
  }

  lemma SixBits(n: nat)
    ensures n == n / 0x40 * 0x40 + n % 0x40 && 0 <= n % 0x40 < 0x40
  {
  }

  lemma WidthCounts(c: char)
    ensures |Bytes(c as int)| == Utf8Width(c) && c as int < 0x110000
  {
  }

  lemma FirstDecodes(first: seq<int>, rest: seq<int>)
    requires 1 <= |first| <= 4 && Width(first[0]) == |first|
    ensures Decoded(first + rest) == [CodePoint(first)] + Decoded(rest)
  {
    hide CodePoint;
    assert (first + rest)[0] == first[0];
    assert (first + rest)[..|first|] == first && (first + rest)[|first|..] == rest;
  }

  /** The encoding of a text reads back as its code points, and the byte length of the text
      is the length of the encoding. */
  lemma {:induction false} ByteLengthCountsBytes(s: string)
    ensures ByteLength(s) == |Encoded(s)|
    ensures Decoded(Encoded(s)) == CodePoints(s)
  {
    if s != "" {
      hide Bytes, CodePoint, Width, Utf8Width, Decoded;
      WidthCounts(s[0]);
      ReadsBack(s[0] as int);
      ByteLengthCountsBytes(s[1..]);
      FirstDecodes(Bytes(s[0] as int), Encoded(s[1..]));
      assert CodePoints(s) == [s[0] as int] + CodePoints(s[1..]);
    }
  }
}
