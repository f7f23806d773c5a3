/** UTF-8 sizes and byteSlice of packages/hub/src/mcp/guard.ts. */
module Utf8 {
  const REPLACEMENT: char := '\U{FFFD}'

  /** How many bytes a character takes in UTF-8. */
  function CharBytes(c: char): (n: nat)
    ensures 1 <= n <= 4
  {
    if c < '\U{80}' then 1 else if c < '\U{800}' then 2 else if c < '\U{10000}' then 3 else 4
  }

  function Bytes(s: string): nat {
    if s == "" then 0 else CharBytes(s[0]) + Bytes(s[1..])
  }

  lemma {:induction false} BytesConcat(a: string, b: string)
    ensures Bytes(a + b) == Bytes(a) + Bytes(b)
  {
    if a == "" {
      assert a + b == b;
    } else {
      BytesConcat(a[1..], b);
      assert (a + b)[1..] == a[1..] + b;
    }
  }

  lemma BytesSplit(s: string, k: nat)
    requires k <= |s|
    ensures Bytes(s) == Bytes(s[..k]) + Bytes(s[k..])
  {
    BytesConcat(s[..k], s[k..]);
    assert s[..k] + s[k..] == s;
  }

  // ---- the encoding whose bytes are counted (section 3 of RFC 3629) ----

  /** The bytes of a character: six bits in every byte behind the first. */
  function Encoded(c: char): seq<int> {
    var n := c as int;
    if n < 0x80 then [n]
    else if n < 0x800 then [0xC0 + n / 0x40, 0x80 + n % 0x40]
    else if n < 0x1_0000 then [0xE0 + n / 0x1000, 0x80 + n / 0x40 % 0x40, 0x80 + n % 0x40]
    else [0xF0 + n / 0x4_0000, 0x80 + n / 0x1000 % 0x40, 0x80 + n / 0x40 % 0x40, 0x80 + n % 0x40]
  }

  function EncodedText(s: string): seq<int> {
    if s == "" then [] else Encoded(s[0]) + EncodedText(s[1..])
  }

  /** The code point that the first bytes of a text stand for, by what its first byte announces. */
  function CodePoint(bytes: seq<int>): int
    requires bytes != []
  {
    var a := bytes[0];
    if a < 0x80 then a
    else if a < 0xE0 then if |bytes| >= 2 then (a - 0xC0) * 0x40 + (bytes[1] - 0x80) else -1
    else if a < 0xF0 then
      if |bytes| >= 3 then ((a - 0xE0) * 0x40 + (bytes[1] - 0x80)) * 0x40 + (bytes[2] - 0x80) else -1
    else if |bytes| >= 4
    then (((a - 0xF0) * 0x40 + (bytes[1] - 0x80)) * 0x40 + (bytes[2] - 0x80)) * 0x40 + (bytes[3] - 0x80)
    else -1
  }

  lemma ThreeGroups(n: nat)
    ensures (n / 0x1000 * 0x40 + n / 0x40 % 0x40) * 0x40 + n % 0x40 == n
  {
    assert n / 0x1000 == n / 0x40 / 0x40;
  }

  lemma FourGroups(n: nat)
    ensures ((n / 0x4_0000 * 0x40 + n / 0x1000 % 0x40) * 0x40 + n / 0x40 % 0x40) * 0x40 + n % 0x40 == n
  {
    ThreeGroups(n);
    assert n / 0x4_0000 == n / 0x1000 / 0x40;
  }

  /** Every character is encoded in bytes that give it back, and as many as are counted. */
  lemma EncodingIsExact(c: char)
    ensures forall i :: 0 <= i < |Encoded(c)| ==> 0 <= Encoded(c)[i] < 0x100
    ensures CodePoint(Encoded(c)) == c as int && |Encoded(c)| == CharBytes(c)
  {
    ThreeGroups(c as int);
    FourGroups(c as int);
  }

  lemma {:induction false} BytesAreCounted(s: string)
    ensures Bytes(s) == |EncodedText(s)|
  {
    if s != "" {
      EncodingIsExact(s[0]);
      BytesAreCounted(s[1..]);
    }
  }

  predicate Ascii(s: string) {
    forall i :: 0 <= i < |s| ==> s[i] < '\U{80}'
  }

  lemma {:induction false} AsciiBytes(s: string)
    requires Ascii(s)
    ensures Bytes(s) == |s|
  {
    if s != "" {
      AsciiBytes(s[1..]);
    }
  }

  /** How many leading characters fit into a byte budget. */
  function Fit(text: string, budget: int): (k: nat)
    ensures k <= |text|
    ensures budget >= 0 ==> Bytes(text[..k]) <= budget
    ensures budget >= 0 && k < |text| ==> budget < Bytes(text[..k]) + CharBytes(text[k])
    ensures budget >= 0 && Bytes(text) > budget ==> k < |text|
  {
    if text == "" || CharBytes(text[0]) > budget then 0
    else
      var k := 1 + Fit(text[1..], budget - CharBytes(text[0]));
      assert text[..k][1..] == text[1..][..k - 1];
      k
  }

  /**
   * What decoding the first maxBytes bytes of a longer text gives: the characters
   * that are complete, and one U+FFFD for a character cut in half.
   */
  function DecodedPrefix(text: string, maxBytes: nat): string {
    var whole := text[..Fit(text, maxBytes)];
    if Bytes(whole) < maxBytes then whole + [REPLACEMENT] else whole
  }

  /** The slice itself: a cut character leaves U+FFFD behind only where that still fits. */
  function Sliced(text: string, maxBytes: int): string {
    if maxBytes <= 0 then ""
    else if Bytes(text) <= maxBytes then text
    else
      var whole := text[..Fit(text, maxBytes)];
      if maxBytes - Bytes(whole) == 3 then whole + [REPLACEMENT] else whole
  }

  /** A slice is the text, or a prefix of it, or a prefix and one U+FFFD; it wastes at most two bytes of its budget. */
  lemma SlicedMeaning(text: string, maxBytes: int)
    requires maxBytes >= 0
    ensures Bytes(Sliced(text, maxBytes)) <= maxBytes
    ensures Bytes(text) > maxBytes ==> Bytes(Sliced(text, maxBytes)) + 2 >= maxBytes
    ensures Bytes(text) > maxBytes ==>
              exists k: nat :: k < |text| && Bytes(text[..k]) <= maxBytes
                && (Sliced(text, maxBytes) == text[..k] || Sliced(text, maxBytes) == text[..k] + [REPLACEMENT])
  {
    var k := Fit(text, maxBytes);
    BytesConcat(text[..k], [REPLACEMENT]);
    assert Bytes([REPLACEMENT]) == 3;
    if Bytes(text) > maxBytes {
      assert k < |text|;
      if maxBytes == 0 {
        assert text[..0] == "";
      }
    }
  }

  /** byteSlice: decode the bytes that fit, then drop characters while the result is too long. */
  method ByteSlice(text: string, maxBytes: int) returns (s: string)
    ensures s == Sliced(text, maxBytes)
  {
    if maxBytes <= 0 {
      return "";
    }
    if Bytes(text) <= maxBytes {
      return text;
    }
    var k := Fit(text, maxBytes);
    s := DecodedPrefix(text, maxBytes);
    BytesConcat(text[..k], [REPLACEMENT]);
    assert Bytes([REPLACEMENT]) == 3;
    while Bytes(s) > maxBytes
      invariant s == text[..k] || (s == text[..k] + [REPLACEMENT] && Bytes(text[..k]) < maxBytes)
      invariant Bytes(s) <= maxBytes ==> s == Sliced(text, maxBytes)
      decreases |s|
    {
      s := s[..|s| - 1];
      assert s == text[..k];
    }
  }
}
