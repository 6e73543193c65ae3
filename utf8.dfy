/** UTF-8 as the client meets it: `str::as_bytes` turns a command or a target
    into the bytes of a request, and `String::from_utf8_lossy` turns the bytes
    of a failed screen capture back into an error message. */
module Utf8 {
  import opened Errors

  /** U+FFFD, which the lossy decoder emits for each malformed sequence. */
  const Replacement: char := '�'

  predicate IsContinuation(b: byte)
  {
    0x80 <= b < 0xC0
  }

  /** The byte that may follow `lead` in a well-formed three-byte sequence:
      no overlong forms below U+0800 and no surrogates U+D800..U+DFFF. */
  predicate SecondOfThree(lead: byte, b: byte)
  {
    || (lead == 0xE0 && 0xA0 <= b <= 0xBF)
    || (0xE1 <= lead <= 0xEC && 0x80 <= b <= 0xBF)
    || (lead == 0xED && 0x80 <= b <= 0x9F)
    || (0xEE <= lead <= 0xEF && 0x80 <= b <= 0xBF)
  }

  /** The byte that may follow `lead` in a well-formed four-byte sequence:
      no overlong forms below U+10000 and nothing above U+10FFFF. */
  predicate SecondOfFour(lead: byte, b: byte)
  {
    || (lead == 0xF0 && 0x90 <= b <= 0xBF)
    || (0xF1 <= lead <= 0xF3 && 0x80 <= b <= 0xBF)
    || (lead == 0xF4 && 0x80 <= b <= 0x8F)
  }

  /** The UTF-8 encoding of one scalar value. */
  function EncodeChar(c: char): (r: seq<byte>)
    ensures 1 <= |r| <= 4
    ensures |r| == 1 <==> (c as int) < 0x80
    ensures |r| == 1 ==> r[0] as int == c as int
  {
    var n := c as int;
    if n < 0x80 then
      [n as byte]
    else if n < 0x800 then
      [(0xC0 + n / 64) as byte, (0x80 + n % 64) as byte]
    else if n < 0x10000 then
      [(0xE0 + n / 4096) as byte, (0x80 + n / 64 % 64) as byte, (0x80 + n % 64) as byte]
    else
      [(0xF0 + n / 0x40000) as byte, (0x80 + n / 4096 % 64) as byte,
       (0x80 + n / 64 % 64) as byte, (0x80 + n % 64) as byte]
  }

  /** `str::as_bytes`: the bytes of a Rust string are its UTF-8 encoding. */
  function Encode(s: string): (r: seq<byte>)
    ensures |s| <= |r| <= 4 * |s|
  {
    if s == [] then [] else EncodeChar(s[0]) + Encode(s[1..])
  }

  /** What the decoder finds at the start of a byte sequence: a well-formed
      scalar of `size` bytes, or a malformed prefix of `size` bytes that is
      replaced as a whole. */
  datatype Scan = Scalar(c: char, size: nat) | Malformed(size: nat)

  /** One step of the standard library's `Utf8Chunks`: a malformed prefix is
      the lead byte together with the continuation bytes that were still
      acceptable after it, so it is one to three bytes long. */
  function ScanAt(s: seq<byte>): (r: Scan)
    requires |s| > 0
    ensures 1 <= r.size <= |s| && r.size <= 4
    ensures r.Malformed? ==> r.size <= 3
  {
    var b0 := s[0] as int;
    if b0 < 0x80 then
      Scalar(b0 as char, 1)
    else if 0xC2 <= b0 <= 0xDF then
      if |s| < 2 || !IsContinuation(s[1]) then Malformed(1)
      else Scalar(((b0 - 0xC0) * 64 + (s[1] as int - 0x80)) as char, 2)
    else if 0xE0 <= b0 <= 0xEF then
      if |s| < 2 || !SecondOfThree(s[0], s[1]) then Malformed(1)
      else if |s| < 3 || !IsContinuation(s[2]) then Malformed(2)
      else Scalar(((b0 - 0xE0) * 4096 + (s[1] as int - 0x80) * 64 + (s[2] as int - 0x80)) as char, 3)
    else if 0xF0 <= b0 <= 0xF4 then
      if |s| < 2 || !SecondOfFour(s[0], s[1]) then Malformed(1)
      else if |s| < 3 || !IsContinuation(s[2]) then Malformed(2)
      else if |s| < 4 || !IsContinuation(s[3]) then Malformed(3)
      else Scalar(((b0 - 0xF0) * 0x40000 + (s[1] as int - 0x80) * 4096
                   + (s[2] as int - 0x80) * 64 + (s[3] as int - 0x80)) as char, 4)
    else
      Malformed(1)
  }

  /** `String::from_utf8_lossy`: well-formed scalars are kept, each malformed
      prefix becomes one U+FFFD. */
  function DecodeLossy(s: seq<byte>): (r: string)
    ensures |r| <= |s|
    decreases |s|
  {
    if s == [] then []
    else match ScanAt(s)
      case Scalar(c, n) => [c] + DecodeLossy(s[n..])
      case Malformed(n) => [Replacement] + DecodeLossy(s[n..])
  }

  /** Encoding distributes over concatenation, so `b"shell:"` followed by the
      command's bytes is the encoding of the whole request string. */
  lemma {:induction false} EncodeAppend(a: string, b: string)
    ensures Encode(a + b) == Encode(a) + Encode(b)
  {
    if a == [] {
      assert a + b == b;
    } else {
      assert (a + b)[0] == a[0];
      assert (a + b)[1..] == a[1..] + b;
      EncodeAppend(a[1..], b);
    }
  }

  /** `n` from its high bits `n / 64` and its low six bits. */
  lemma SplitSix(n: nat, q: nat, r: nat)
    requires n == q * 64 + r && r < 64
    ensures n / 64 == q && n % 64 == r
  {
  }

  lemma ScanTwoBytes(c: char, rest: seq<byte>)
    requires 0x80 <= c as int < 0x800
    ensures ScanAt(EncodeChar(c) + rest) == Scalar(c, 2)
  {
    var n := c as int;
    var s := EncodeChar(c) + rest;
    var q, r := n / 64, n % 64;
    assert s[0] as int == 0xC0 + q && s[1] as int == 0x80 + r;
    assert (q + 0xC0 - 0xC0) * 64 + r == n;
  }

  lemma ScanThreeBytes(c: char, rest: seq<byte>)
    requires 0x800 <= c as int < 0x10000
    ensures ScanAt(EncodeChar(c) + rest) == Scalar(c, 3)
  {
    var n := c as int;
    var s := EncodeChar(c) + rest;
    var q, r := n / 64, n % 64;
    var hi, mid := q / 64, q % 64;
    assert n == hi * 4096 + mid * 64 + r;
    SplitSix(n / 4096 * 64 + mid, n / 4096, mid) by {
      assert n / 4096 == hi;
    }
    assert s[0] as int == 0xE0 + hi && s[1] as int == 0x80 + mid && s[2] as int == 0x80 + r;
    assert hi == 0 ==> mid >= 32;
    assert hi == 0xD ==> mid < 32;
  }

  lemma ScanFourBytes(c: char, rest: seq<byte>)
    requires 0x10000 <= c as int
    ensures ScanAt(EncodeChar(c) + rest) == Scalar(c, 4)
  {
    var n := c as int;
    var s := EncodeChar(c) + rest;
    var q, r := n / 64, n % 64;
    var q2, mid := q / 64, q % 64;
    var top, hi := q2 / 64, q2 % 64;
    assert n == top * 0x40000 + hi * 4096 + mid * 64 + r;
    assert n / 4096 == q2 && n / 0x40000 == top;
    assert s[0] as int == 0xF0 + top && s[1] as int == 0x80 + hi;
    assert s[2] as int == 0x80 + mid && s[3] as int == 0x80 + r;
    assert top == 0 ==> hi >= 16;
    assert top == 4 ==> hi < 16;
  }

  /** The decoder reads back the scalar that one encoding step wrote,
      whatever follows it. */
  lemma ScanEncodedChar(c: char, rest: seq<byte>)
    ensures ScanAt(EncodeChar(c) + rest) == Scalar(c, |EncodeChar(c)|)
  {
    var n := c as int;
    if n < 0x80 {
    } else if n < 0x800 {
      ScanTwoBytes(c, rest);
    } else if n < 0x10000 {
      ScanThreeBytes(c, rest);
    } else {
      ScanFourBytes(c, rest);
    }
  }

  /** Round trip: decoding the bytes of any string gives the string back,
      with no replacement character. */
  lemma {:induction false} DecodeEncode(s: string)
    ensures DecodeLossy(Encode(s)) == s
  {
    if s != [] {
      var e := EncodeChar(s[0]);
      ScanEncodedChar(s[0], Encode(s[1..]));
      assert (e + Encode(s[1..]))[|e|..] == Encode(s[1..]);
      DecodeEncode(s[1..]);
    }
  }

  /** Bytes below 0x80 decode one for one into the characters with those codes. */
  lemma {:induction false} DecodeAscii(s: seq<byte>)
    requires forall i :: 0 <= i < |s| ==> s[i] < 0x80
    ensures |DecodeLossy(s)| == |s|
    ensures forall i :: 0 <= i < |s| ==> DecodeLossy(s)[i] as int == s[i] as int
  {
    if s != [] {
      DecodeAscii(s[1..]);
    }
  }

  /** A string of characters below U+0080 encodes one byte per character. */
  lemma {:induction false} EncodeAscii(s: string)
    requires forall i :: 0 <= i < |s| ==> (s[i] as int) < 0x80
    ensures |Encode(s)| == |s|
    ensures forall i :: 0 <= i < |s| ==> Encode(s)[i] as int == s[i] as int
  {
    if s != [] {
      EncodeAscii(s[1..]);
    }
  }
}
