/** How many bytes text takes in UTF-8 (section 3 of RFC 3629). Text is a sequence of code points. */
module Utf8 {

  function Width(c: char): (n: nat)
    ensures 1 <= n <= 4
  {
    var p := c as int;
    if p < 0x80 then 1 else if p < 0x800 then 2 else if p < 0x10000 then 3 else 4
  }

  function ByteLen(s: string): nat {
    if s == "" then 0 else ByteLen(s[..|s| - 1]) + Width(s[|s| - 1])
  }

  lemma {:induction false} ByteLenAppend(a: string, b: string)
    ensures ByteLen(a + b) == ByteLen(a) + ByteLen(b)
    decreases |b|
  {
    if b == "" {
      assert a + b == a;
    } else {
      ByteLenAppend(a, b[..|b| - 1]);
      assert (a + b)[..|a + b| - 1] == a + b[..|b| - 1];
    }
  }

  lemma ByteLenSlice(s: string, i: nat, j: nat)
    requires i <= j <= |s|
    ensures ByteLen(s[i..j]) <= ByteLen(s)
  {
    hide ByteLen;
    ByteLenAppend(s[..i], s[i..j]);
    ByteLenAppend(s[..j], s[j..]);
    assert s == s[..j] + s[j..] && s[..j] == s[..i] + s[i..j];
  }

  /** The bytes of a code point: a lead byte that says how many follow, and six bits in each that does. */
  function Encode(c: char): seq<int> {
    var p := c as int;
    var q, r, s := p / 0x40, p / 0x40 / 0x40, p / 0x40 / 0x40 / 0x40;
    if p < 0x80 then [p]
    else if p < 0x800 then [0xC0 + q, 0x80 + p % 0x40]
    else if p < 0x10000 then [0xE0 + r, 0x80 + q % 0x40, 0x80 + p % 0x40]
    else [0xF0 + s, 0x80 + r % 0x40, 0x80 + q % 0x40, 0x80 + p % 0x40]
  }

  /** How many bytes a lead byte announces. */
  function Announced(lead: int): nat {
    if lead < 0x80 then 1 else if lead < 0xE0 then 2 else if lead < 0xF0 then 3 else 4
  }

  function Low(bytes: seq<int>, i: nat): int
    requires i < |bytes|
  {
    bytes[i] - 0x80
  }

  function Decode(bytes: seq<int>): int
    requires bytes != [] && |bytes| == Announced(bytes[0])
  {
    match |bytes|
    case 1 => bytes[0]
    case 2 => (bytes[0] - 0xC0) * 0x40 + Low(bytes, 1)
    case 3 => (bytes[0] - 0xE0) * 0x1000 + Low(bytes, 1) * 0x40 + Low(bytes, 2)
    case _ => (bytes[0] - 0xF0) * 0x40000 + Low(bytes, 1) * 0x1000 + Low(bytes, 2) * 0x40 + Low(bytes, 3)
  }

  /** The width of a code point is the number of its bytes, each of them a byte, and they decode to it. */
  lemma WidthIsTheEncoding(c: char)
    ensures |Encode(c)| == Width(c) && Announced(Encode(c)[0]) == Width(c)
    ensures forall i :: 0 <= i < |Encode(c)| ==> 0 <= Encode(c)[i] < 0x100
    ensures forall i :: 1 <= i < |Encode(c)| ==> 0x80 <= Encode(c)[i] < 0xC0
    ensures Decode(Encode(c)) == c as int
  {
  }
}
