/** The size limits count the octets of UTF-8, section 3 of RFC 3629. */
module Utf8 {
  import Text

  /** A following octet holds the six low bits. */
  function Following(c: int): int {
    0x80 + c % 0x40
  }

  /** The octets of one code point, six bits in each but the first. */
  function EncodeChar(c: int): (octets: seq<int>)
    ensures octets != []
  {
    if c < 0x80 then [c]
    else if c < 0x800 then [0xC0 + c / 0x40, Following(c)]
    else if c < 0x1_0000 then [0xE0 + c / 0x40 / 0x40, Following(c / 0x40), Following(c)]
    else [0xF0 + c / 0x40 / 0x40 / 0x40, Following(c / 0x40 / 0x40), Following(c / 0x40), Following(c)]
  }

  function Encode(s: string): seq<int> {
    if s == "" then [] else EncodeChar(s[0] as int) + Encode(s[1..])
  }

  /** How many octets belong to a code point, told by the first. */
  function Width(first: int): (n: nat)
    ensures 1 <= n <= 4
  {
    if first < 0x80 then 1 else if first < 0xE0 then 2 else if first < 0xF0 then 3 else 4
  }

  /** The low bits of the first octet and six bits of each other. */
  function DecodeChar(octets: seq<int>): int
    requires octets != [] && |octets| == Width(octets[0])
  {
    if |octets| == 1 then octets[0]
    else if |octets| == 2 then (octets[0] - 0xC0) * 0x40 + (octets[1] - 0x80)
    else if |octets| == 3 then ((octets[0] - 0xE0) * 0x40 + (octets[1] - 0x80)) * 0x40 + (octets[2] - 0x80)
    else (((octets[0] - 0xF0) * 0x40 + (octets[1] - 0x80)) * 0x40 + (octets[2] - 0x80)) * 0x40 + (octets[3] - 0x80)
  }

  function Decode(octets: seq<int>): seq<int> {
    if octets == [] || |octets| < Width(octets[0]) then []
    else [DecodeChar(octets[..Width(octets[0])])] + Decode(octets[Width(octets[0])..])
  }

  function CodePoints(s: string): (points: seq<int>)
    ensures |points| == |s|
  {
    seq(|s|, i requires 0 <= i < |s| => s[i] as int)
  }

  lemma CharComesBack(c: int)
    requires 0 <= c < 0x11_0000
    ensures Width(EncodeChar(c)[0]) == |EncodeChar(c)| && DecodeChar(EncodeChar(c)) == c
  {
  }

  /** Decoding gives the text back. */
  lemma {:induction false} TextComesBack(s: string)
    ensures Decode(Encode(s)) == CodePoints(s)
  {
    if s != "" {
      var first, rest := EncodeChar(s[0] as int), Encode(s[1..]);
      CharComesBack(s[0] as int);
      TextComesBack(s[1..]);
      assert (first + rest)[0] == first[0];
      assert (first + rest)[..|first|] == first && (first + rest)[|first|..] == rest;
      assert CodePoints(s) == [s[0] as int] + CodePoints(s[1..]);
    }
  }

  /** Main result. A size limit counts exactly the octets of the text's encoding, from which the text comes back. */
  lemma {:induction false} LengthIsOctets(s: string)
    ensures Text.Utf8Length(s) == |Encode(s)| && Decode(Encode(s)) == CodePoints(s)
  {
    TextComesBack(s);
    if s != "" {
      LengthIsOctets(s[1..]);
    }
  }
}
