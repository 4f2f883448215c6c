/**
 * Digest helpers of GoldenHammer's caching layer: the upper-case hex encoding of
 * byte arrays (BitConverter's dash-separated pairs with the dashes removed), the
 * UTF-16LE encoding and decoding of strings and the hex SHA-256 string of a text.
 *
 * SHA-256 (section 6.2 of FIPS 180-4) is not computed bit by bit: every member that
 * needs it takes it as a function from bytes to 32-byte digests.
 */
module Hashing {

  import opened Wrappers

  newtype byte = x: int | 0 <= x < 256

  /** A SHA-256 digest is always 32 bytes long. */
  type Digest = d: seq<byte> | |d| == 32 witness seq(32, i => 0)

  /** The hash function, left uninterpreted apart from the size of its result. */
  type Sha256 = seq<byte> -> Digest

  predicate IsUpperHex(c: char) {
    '0' <= c <= '9' || 'A' <= c <= 'F'
  }

  /** The upper-case hex digit of a nibble. */
  function HexDigit(n: int): (c: char)
    requires 0 <= n < 16
    ensures IsUpperHex(c)
  {
    if n < 10 then ('0' as int + n) as char else ('A' as int + n - 10) as char
  }

  /** The nibble an upper-case hex digit stands for. */
  function HexValue(c: char): (n: int)
    requires IsUpperHex(c)
    ensures 0 <= n < 16 && HexDigit(n) == c
  {
    if c <= '9' then c as int - '0' as int else c as int - 'A' as int + 10
  }

  /** The two digits BitConverter prints for one byte: high nibble, then low nibble. */
  function HexPair(b: byte): string {
    [HexDigit((b / 16) as int), HexDigit((b % 16) as int)]
  }

  /** BitConverter.ToString: one pair per byte, pairs separated by '-', "" for no bytes. */
  function BitConverterToString(ba: seq<byte>): (s: string)
    ensures |ba| == 0 ==> s == ""
    ensures |ba| > 0 ==> |s| == 3 * |ba| - 1
  {
    if |ba| == 0 then ""
    else if |ba| == 1 then HexPair(ba[0])
    else HexPair(ba[0]) + "-" + BitConverterToString(ba[1..])
  }

  /** String.Replace("-", ""): every dash removed, everything else kept in order. */
  function RemoveDashes(s: string): (r: string)
    ensures '-' !in r && |r| <= |s|
    ensures '-' !in s ==> r == s
  {
    if |s| == 0 then "" else (if s[0] == '-' then "" else [s[0]]) + RemoveDashes(s[1..])
  }

  /** The reference encoding: the pairs of all bytes, concatenated. */
  function HexPairs(ba: seq<byte>): string {
    if |ba| == 0 then "" else HexPair(ba[0]) + HexPairs(ba[1..])
  }

  /** HashingExtensions.ToHexString: the dash-separated pairs with the dashes removed. */
  function ToHexString(ba: seq<byte>): (s: string)
    ensures |s| == 2 * |ba|
    ensures forall k :: 0 <= k < |s| ==> IsUpperHex(s[k])
    ensures '-' !in s
  {
    ToHexStringIsPairs(ba);
    HexPairsShape(ba);
    RemoveDashes(BitConverterToString(ba))
  }

  lemma {:induction false} RemoveDashesAppend(a: string, b: string)
    ensures RemoveDashes(a + b) == RemoveDashes(a) + RemoveDashes(b)
  {
    if |a| == 0 {
      assert a + b == b;
    } else {
      assert (a + b)[1..] == a[1..] + b;
      RemoveDashesAppend(a[1..], b);
    }
  }

  lemma {:induction false} HexPairsShape(ba: seq<byte>)
    ensures |HexPairs(ba)| == 2 * |ba|
    ensures forall k :: 0 <= k < |HexPairs(ba)| ==> IsUpperHex(HexPairs(ba)[k])
  {
    if |ba| > 0 {
      HexPairsShape(ba[1..]);
    }
  }

  lemma PairKeepsDigits(b: byte)
    ensures RemoveDashes(HexPair(b)) == HexPair(b)
  {
    var p := HexPair(b);
    assert p[1..] == [p[1]];
    assert RemoveDashes([p[1]]) == [p[1]] by {
      assert [p[1]][1..] == "";
    }
  }

  /** Removing the dashes from BitConverter's output leaves exactly the pairs. */
  lemma {:induction false} ToHexStringIsPairs(ba: seq<byte>)
    ensures RemoveDashes(BitConverterToString(ba)) == HexPairs(ba)
  {
    if |ba| == 0 {
    } else if |ba| == 1 {
      PairKeepsDigits(ba[0]);
      assert ba[1..] == [];
    } else {
      var p := HexPair(ba[0]);
      PairKeepsDigits(ba[0]);
      RemoveDashesAppend(p + "-", BitConverterToString(ba[1..]));
      RemoveDashesAppend(p, "-");
      ToHexStringIsPairs(ba[1..]);
    }
  }

  /** Characters 2i and 2i+1 of the encoding are the high and the low nibble of byte i. */
  lemma {:induction false} ToHexStringNibbles(ba: seq<byte>, i: int)
    requires 0 <= i < |ba|
    ensures ToHexString(ba)[2 * i] == HexDigit((ba[i] / 16) as int)
    ensures ToHexString(ba)[2 * i + 1] == HexDigit((ba[i] % 16) as int)
  {
    ToHexStringIsPairs(ba);
    HexPairsNibbles(ba, i);
  }

  lemma {:induction false} HexPairsNibbles(ba: seq<byte>, i: int)
    requires 0 <= i < |ba|
    ensures |HexPairs(ba)| == 2 * |ba|
    ensures HexPairs(ba)[2 * i] == HexDigit((ba[i] / 16) as int)
    ensures HexPairs(ba)[2 * i + 1] == HexDigit((ba[i] % 16) as int)
  {
    HexPairsShape(ba);
    if i > 0 {
      HexPairsNibbles(ba[1..], i - 1);
    }
  }

  /** Decoder for upper-case hex strings: None for an odd length or a non-hex character. */
  function FromHexString(s: string): Option<seq<byte>> {
    if |s| == 0 then Some([])
    else if |s| == 1 || !IsUpperHex(s[0]) || !IsUpperHex(s[1]) then None
    else
      match FromHexString(s[2..])
      case None => None
      case Some(rest) => Some([(HexValue(s[0]) * 16 + HexValue(s[1])) as byte] + rest)
  }

  /** Decoding the encoding gives the bytes back. */
  lemma {:induction false} HexRoundTrip(ba: seq<byte>)
    ensures FromHexString(ToHexString(ba)) == Some(ba)
  {
    ToHexStringIsPairs(ba);
    PairsRoundTrip(ba);
  }

  lemma {:induction false} PairsRoundTrip(ba: seq<byte>)
    ensures FromHexString(HexPairs(ba)) == Some(ba)
  {
    if |ba| > 0 {
      var p := HexPair(ba[0]);
      var s := HexPairs(ba);
      assert s == p + HexPairs(ba[1..]);
      assert s[2..] == HexPairs(ba[1..]);
      PairsRoundTrip(ba[1..]);
      assert HexValue(s[0]) == (ba[0] / 16) as int;
      assert HexValue(s[1]) == (ba[0] % 16) as int;
      assert ba == [ba[0]] + ba[1..];
    }
  }

  /** The encoding is injective: different bytes never share a hex string. */
  lemma ToHexStringInjective(a: seq<byte>, b: seq<byte>)
    requires ToHexString(a) == ToHexString(b)
    ensures a == b
  {
    HexRoundTrip(a);
    HexRoundTrip(b);
  }

  /** The UTF-16 code units of one Unicode scalar value (a surrogate pair above U+FFFF). */
  function CodeUnits(c: char): (units: seq<int>)
    ensures 1 <= |units| <= 2
    ensures forall k :: 0 <= k < |units| ==> 0 <= units[k] < 0x1_0000
  {
    var v := c as int;
    if v < 0x1_0000 then [v]
    else [0xD800 + (v - 0x1_0000) / 0x400, 0xDC00 + (v - 0x1_0000) % 0x400]
  }

  /** Little-endian bytes of a sequence of 16-bit code units. */
  function UnitsLE(units: seq<int>): (r: seq<byte>)
    requires forall k :: 0 <= k < |units| ==> 0 <= units[k] < 0x1_0000
    ensures |r| == 2 * |units|
  {
    if |units| == 0 then []
    else [(units[0] % 256) as byte, (units[0] / 256) as byte] + UnitsLE(units[1..])
  }

  /** Encoding.Unicode.GetBytes: UTF-16LE without a byte order mark (RFC 2781). */
  function Utf16LE(t: string): (r: seq<byte>)
    ensures |r| % 2 == 0
    ensures 2 * |t| <= |r| <= 4 * |t|
  {
    if |t| == 0 then [] else UnitsLE(CodeUnits(t[0])) + Utf16LE(t[1..])
  }

  predicate IsHighSurrogate(u: int) {
    0xD800 <= u < 0xDC00
  }

  predicate IsLowSurrogate(u: int) {
    0xDC00 <= u < 0xE000
  }

  /** U+FFFD, which the decoder puts in place of every ill-formed code unit. */
  const ReplacementChar: char := '\U{FFFD}'

  /** Little-endian byte pairs read back as 16-bit code units; an odd last byte is left over. */
  function UnitsOfLE(bs: seq<byte>): (units: seq<int>)
    ensures |units| == |bs| / 2
    ensures forall k :: 0 <= k < |units| ==> 0 <= units[k] < 0x1_0000
  {
    if |bs| < 2 then [] else [bs[0] as int + 256 * bs[1] as int] + UnitsOfLE(bs[2..])
  }

  /** Code units to text: a surrogate pair is one character, a lone surrogate becomes U+FFFD. */
  function CharsOfUnits(units: seq<int>): (t: string)
    requires forall k :: 0 <= k < |units| ==> 0 <= units[k] < 0x1_0000
    ensures (|units| + 1) / 2 <= |t| <= |units|
  {
    if |units| == 0 then ""
    else if IsHighSurrogate(units[0]) && |units| >= 2 && IsLowSurrogate(units[1]) then
      [(0x1_0000 + (units[0] - 0xD800) * 0x400 + (units[1] - 0xDC00)) as char] + CharsOfUnits(units[2..])
    else if IsHighSurrogate(units[0]) || IsLowSurrogate(units[0]) then
      [ReplacementChar] + CharsOfUnits(units[1..])
    else
      [units[0] as char] + CharsOfUnits(units[1..])
  }

  /** Encoding.Unicode.GetString: UTF-16LE decoding that replaces ill-formed input by U+FFFD. */
  function Utf16LEDecode(bs: seq<byte>): (t: string)
    ensures |bs| / 4 <= |t| <= (|bs| + 1) / 2
    ensures |bs| % 2 == 1 ==> |t| > 0 && t[|t| - 1] == ReplacementChar
  {
    CharsOfUnits(UnitsOfLE(bs)) + (if |bs| % 2 == 1 then [ReplacementChar] else "")
  }

  /** Decoding the UTF-16LE bytes of a text gives the text back. */
  lemma {:induction false} Utf16RoundTrip(t: string)
    ensures Utf16LEDecode(Utf16LE(t)) == t
  {
    if |t| == 0 {
    } else {
      var head := UnitsLE(CodeUnits(t[0]));
      var tail := Utf16LE(t[1..]);
      UnitsRoundTrip(CodeUnits(t[0]));
      UnitsOfLEAppend(head, tail);
      var rest := UnitsOfLE(tail);
      CharsOfCodeUnits(t[0], rest);
      Utf16RoundTrip(t[1..]);
      assert t == [t[0]] + t[1..];
    }
  }

  lemma {:induction false} UnitsRoundTrip(units: seq<int>)
    requires forall k :: 0 <= k < |units| ==> 0 <= units[k] < 0x1_0000
    ensures UnitsOfLE(UnitsLE(units)) == units
  {
    if |units| > 0 {
      var bs := UnitsLE(units);
      assert bs[2..] == UnitsLE(units[1..]);
      UnitsRoundTrip(units[1..]);
      assert units == [units[0]] + units[1..];
    }
  }

  lemma {:induction false} UnitsOfLEAppend(x: seq<byte>, y: seq<byte>)
    requires |x| % 2 == 0
    ensures UnitsOfLE(x + y) == UnitsOfLE(x) + UnitsOfLE(y)
    decreases |x|
  {
    if |x| == 0 {
      assert x + y == y;
    } else {
      assert (x + y)[2..] == x[2..] + y;
      UnitsOfLEAppend(x[2..], y);
    }
  }

  lemma CharsOfCodeUnits(c: char, rest: seq<int>)
    requires forall k :: 0 <= k < |rest| ==> 0 <= rest[k] < 0x1_0000
    ensures CharsOfUnits(CodeUnits(c) + rest) == [c] + CharsOfUnits(rest)
  {
    var units := CodeUnits(c) + rest;
    if c as int < 0x1_0000 {
      assert units[0] == c as int && !IsHighSurrogate(units[0]) && !IsLowSurrogate(units[0]);
      assert units[1..] == rest;
    } else {
      var hi, lo := units[0], units[1];
      SurrogatePairJoins(c as int);
      assert IsHighSurrogate(hi) && IsLowSurrogate(lo);
      assert (0x1_0000 + (hi - 0xD800) * 0x400 + (lo - 0xDC00)) as char == c;
      assert units[2..] == rest;
    }
  }

  /** The two halves of a surrogate pair put back together give the scalar value. */
  lemma SurrogatePairJoins(v: int)
    requires 0x1_0000 <= v < 0x11_0000
    ensures IsHighSurrogate(0xD800 + (v - 0x1_0000) / 0x400)
    ensures IsLowSurrogate(0xDC00 + (v - 0x1_0000) % 0x400)
    ensures 0x1_0000 + (v - 0x1_0000) / 0x400 * 0x400 + (v - 0x1_0000) % 0x400 == v
  {
  }

  /** HashingExtensions.ToShaString: the hex SHA-256 of the text's UTF-16LE bytes, always 64 digits. */
  function ToShaString(sha: Sha256, text: string): (s: string)
    ensures |s| == 64
    ensures forall k :: 0 <= k < |s| ==> IsUpperHex(s[k])
  {
    ToHexString(sha(Utf16LE(text)))
  }
}
