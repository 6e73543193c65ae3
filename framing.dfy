/** The two framing primitives of the smart-socket protocol: the four-digit
    hexadecimal length that precedes every request, and the four-byte status
    that answers it (autogui_core/src/controller/adb.rs, `send_data` and
    `check_okay`). */
module Framing {
  import opened Errors
  import Utf8

  /** The digit `hex::encode_upper` writes for a nibble: `0`-`9`, then `A`-`F`. */
  function HexDigit(v: nat): (b: byte)
    requires v < 16
    ensures IsUpperHex(b)
  {
    if v < 10 then (0x30 + v) as byte else (0x41 + v - 10) as byte
  }

  predicate IsUpperHex(b: byte)
  {
    (0x30 <= b <= 0x39) || (0x41 <= b <= 0x46)
  }

  /** The nibble `hex::decode_to_slice` reads from a digit; it takes both
      cases of `a`-`f` and rejects everything else. */
  function HexValue(b: byte): (r: Option<nat>)
    ensures r.Some? <==> IsUpperHex(b) || 0x61 <= b <= 0x66
    ensures r.Some? ==> r.value < 16
    ensures IsUpperHex(b) ==> HexDigit(r.value) == b
    ensures 0x61 <= b <= 0x66 ==> HexDigit(r.value) == b - 0x20
  {
    if 0x30 <= b <= 0x39 then Some(b as nat - 0x30)
    else if 0x41 <= b <= 0x46 then Some(b as nat - 0x41 + 10)
    else if 0x61 <= b <= 0x66 then Some(b as nat - 0x61 + 10)
    else None
  }

  lemma HexValueOfDigit(v: nat)
    requires v < 16
    ensures HexValue(HexDigit(v)) == Some(v)
  {
  }

  /** The prefix `send_data` writes for a payload of `len` bytes: the length
      cast to `u16` (so taken modulo 65536), its two big-endian bytes, each as
      two upper-case hexadecimal digits. */
  function LengthPrefix(len: nat): (r: seq<byte>)
    ensures |r| == 4
    ensures forall i :: 0 <= i < 4 ==> IsUpperHex(r[i])
  {
    var v := len % 0x10000;
    var hi, lo := v / 256, v % 256;
    [HexDigit(hi / 16), HexDigit(hi % 16), HexDigit(lo / 16), HexDigit(lo % 16)]
  }

  /** The reading of a length prefix in the disabled `recv_data`:
      `hex::decode_to_slice` into two bytes, then `u16::from_be_bytes`.
      A prefix that is not four hexadecimal digits is a `Decode` error. */
  function DecodeLengthPrefix(s: seq<byte>): (r: Result<nat>)
    ensures r.Ok? ==> r.value < 0x10000
    ensures r.Err? ==> r.error == Decode
    ensures r.Ok? <==> |s| == 4 && forall i :: 0 <= i < 4 ==> HexValue(s[i]).Some?
  {
    if |s| != 4 then Err(Decode)
    else match (HexValue(s[0]), HexValue(s[1]), HexValue(s[2]), HexValue(s[3]))
      case (Some(a), Some(b), Some(c), Some(d)) => Ok((a * 16 + b) * 256 + c * 16 + d)
      case _ => Err(Decode)
  }

  /** Round trip of the prefix: what is read back is the length modulo 65536,
      so the length itself whenever it fits in 16 bits. */
  lemma LengthPrefixRoundTrip(len: nat)
    ensures DecodeLengthPrefix(LengthPrefix(len)) == Ok(len % 0x10000)
    ensures len < 0x10000 ==> DecodeLengthPrefix(LengthPrefix(len)) == Ok(len)
  {
    var v := len % 0x10000;
    var hi, lo := v / 256, v % 256;
    HexValueOfDigit(hi / 16);
    HexValueOfDigit(hi % 16);
    HexValueOfDigit(lo / 16);
    HexValueOfDigit(lo % 16);
    assert (hi / 16 * 16 + hi % 16) * 256 + lo / 16 * 16 + lo % 16 == v;
  }

  /** The cast to `u16` is silent: a length and the same length plus 65536
      get the same prefix, so a prefix never tells them apart. */
  lemma LengthPrefixWraps(len: nat)
    ensures LengthPrefix(len + 0x10000) == LengthPrefix(len)
  {
    assert (len + 0x10000) % 0x10000 == len % 0x10000;
  }

  /** Two lengths below 65536 never share a prefix. */
  lemma LengthPrefixInjective(m: nat, n: nat)
    requires m < 0x10000 && n < 0x10000 && LengthPrefix(m) == LengthPrefix(n)
    ensures m == n
  {
    LengthPrefixRoundTrip(m);
    LengthPrefixRoundTrip(n);
  }

  /** One request on the wire: the prefix, then the payload unchanged. */
  function Frame(payload: seq<byte>): (r: seq<byte>)
    ensures |r| == 4 + |payload|
    ensures r[4..] == payload
  {
    LengthPrefix(|payload|) + payload
  }

  /** How the server reads one frame from the front of what it received:
      four digits of length, then that many bytes of payload. */
  function ParseFrame(s: seq<byte>): (r: Option<(seq<byte>, seq<byte>)>)
    ensures r.Some? <==> |s| >= 4 && DecodeLengthPrefix(s[..4]).Ok? && DecodeLengthPrefix(s[..4]).value <= |s| - 4
    ensures r.Some? ==> DecodeLengthPrefix(s[..4]) == Ok(|r.value.0|)
    ensures r.Some? ==> |r.value.0| < 0x10000 && s == s[..4] + r.value.0 + r.value.1
  {
    if |s| < 4 then None
    else match DecodeLengthPrefix(s[..4])
      case Err(_) => None
      case Ok(n) => if |s| - 4 < n then None else Some((s[4..4 + n], s[4 + n..]))
  }

  /** A frame whose payload fits in 16 bits is read back exactly, and
      whatever was sent after it is left for the next read. */
  lemma ParseFrameRoundTrip(payload: seq<byte>, rest: seq<byte>)
    requires |payload| < 0x10000
    ensures ParseFrame(Frame(payload) + rest) == Some((payload, rest))
  {
    var s := Frame(payload) + rest;
    assert s[..4] == LengthPrefix(|payload|);
    LengthPrefixRoundTrip(|payload|);
    assert s[4..4 + |payload|] == payload;
    assert s[4 + |payload|..] == rest;
  }

  /** Two frames sent back to back, after whatever `before` holds, are read
      back one after the other, with nothing after the second. */
  lemma ParseTwoFrames(before: seq<byte>, first: seq<byte>, second: seq<byte>, s: seq<byte>)
    requires |first| < 0x10000 && |second| < 0x10000
    requires s == before + (Frame(first) + Frame(second))
    ensures |s| >= |before| + 4 + |first|
    ensures ParseFrame(s[|before|..]) == Some((first, s[|before| + 4 + |first|..]))
    ensures ParseFrame(s[|before| + 4 + |first|..]) == Some((second, []))
  {
    assert s[|before|..] == Frame(first) + Frame(second);
    assert s[|before| + 4 + |first|..] == Frame(second);
    ParseFrameRoundTrip(first, Frame(second));
    ParseFrameRoundTrip(second, []);
    assert Frame(second) + [] == Frame(second);
  }

  /** A payload of 65536 bytes or more is not rejected but announced with a
      truncated length: the server reads a shorter payload than was sent. */
  lemma ParseFrameTruncated(payload: seq<byte>, rest: seq<byte>)
    requires |payload| >= 0x10000
    ensures ParseFrame(Frame(payload) + rest) != Some((payload, rest))
  {
    var s := Frame(payload) + rest;
    assert s[..4] == LengthPrefix(|payload|);
    LengthPrefixRoundTrip(|payload|);
  }

  /** The status `OKAY`. */
  const Okay: seq<byte> := [0x4F, 0x4B, 0x41, 0x59]

  /** The status `FAIL`, which the server sends when it refuses a request. */
  const Fail: seq<byte> := [0x46, 0x41, 0x49, 0x4C]

  /** `buf.eq(b"OKAY")`: only the exact four bytes `OKAY` acknowledge. */
  predicate IsOkay(status: seq<byte>)
    ensures IsOkay(status) <==> |status| == 4 && forall i :: 0 <= i < 4 ==> status[i] == Okay[i]
  {
    status == Okay
  }

  /** The status constants are the ASCII words the protocol names. */
  lemma StatusWords()
    ensures Okay == Utf8.Encode("OKAY") && Fail == Utf8.Encode("FAIL")
    ensures IsOkay(Okay) && !IsOkay(Fail)
  {
    Utf8.EncodeAscii("OKAY");
    Utf8.EncodeAscii("FAIL");
  }
}
