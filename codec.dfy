/** The transport encoding of the import text: the client sends base64 (section 4 of RFC 4648)
    of the UTF-8 bytes (RFC 3629) of the pasted text, `btoa(unescape(encodeURIComponent(t)))`,
    and the server recovers it with Python's `b64decode(raw).decode("utf-8")`. */
module Codec {
  import opened Wrappers

  newtype byte = x: int | 0 <= x < 256

  // ---------------------------------------------------------------------------------------
  // UTF-8

  predicate IsCont(b: byte) {
    0x80 <= b < 0xC0
  }

  /** The UTF-8 form of one Unicode scalar value. */
  function EncodeChar(c: char): (b: seq<byte>)
    ensures 1 <= |b| <= 4
    ensures b[0] < 0x80 <==> |b| == 1
  {
    var v := c as int;
    if v < 0x80 then [v as byte]
    else if v < 0x800 then [(0xC0 + v / 64) as byte, (0x80 + v % 64) as byte]
    else if v < 0x10000 then
      var q := v / 64;
      [(0xE0 + q / 64) as byte, (0x80 + q % 64) as byte, (0x80 + v % 64) as byte]
    else
      var q := v / 64;
      var q' := q / 64;
      [(0xF0 + q' / 64) as byte, (0x80 + q' % 64) as byte, (0x80 + q % 64) as byte, (0x80 + v % 64) as byte]
  }

  /** The UTF-8 bytes of a text, as `encodeURIComponent` followed by `unescape` produces them. */
  function Utf8Encode(s: string): (b: seq<byte>)
    ensures |b| >= |s|
    ensures b == [] <==> s == []
  {
    if s == [] then [] else EncodeChar(s[0]) + Utf8Encode(s[1..])
  }

  /** Decodes the first well-formed UTF-8 sequence of `b` (Table 3-7 of the Unicode standard,
      which Python's strict decoder follows) and says how many bytes it took. */
  function DecodeFirst(b: seq<byte>): (r: Option<(char, nat)>)
    requires |b| > 0
    ensures r.Some? ==> 1 <= r.value.1 <= |b|
  {
    var b0 := b[0] as int;
    if b0 < 0x80 then Some((b0 as char, 1))
    else if 0xC2 <= b0 <= 0xDF then
      if |b| >= 2 && IsCont(b[1]) then
        Some((((b0 - 0xC0) * 64 + (b[1] as int - 0x80)) as char, 2))
      else None
    else if 0xE0 <= b0 <= 0xEF then
      var lo := if b0 == 0xE0 then 0xA0 else 0x80;
      var hi := if b0 == 0xED then 0x9F else 0xBF;
      if |b| >= 3 && lo <= b[1] as int <= hi && IsCont(b[2]) then
        Some(((((b0 - 0xE0) * 64 + (b[1] as int - 0x80)) * 64 + (b[2] as int - 0x80)) as char, 3))
      else None
    else if 0xF0 <= b0 <= 0xF4 then
      var lo := if b0 == 0xF0 then 0x90 else 0x80;
      var hi := if b0 == 0xF4 then 0x8F else 0xBF;
      if |b| >= 4 && lo <= b[1] as int <= hi && IsCont(b[2]) && IsCont(b[3]) then
        Some((((((b0 - 0xF0) * 64 + (b[1] as int - 0x80)) * 64 + (b[2] as int - 0x80)) * 64
               + (b[3] as int - 0x80)) as char, 4))
      else None
    else None
  }

  /** `bytes.decode("utf-8")`: `None` where Python raises UnicodeDecodeError. */
  function Utf8Decode(b: seq<byte>): Option<string>
    decreases |b|
  {
    if b == [] then Some([])
    else match DecodeFirst(b)
      case None => None
      case Some((c, n)) =>
        match Utf8Decode(b[n..])
        case None => None
        case Some(s) => Some([c] + s)
  }

  lemma TwoByteArith(v: int)
    requires 0x80 <= v < 0x800
    ensures 0xC2 <= 0xC0 + v / 64 <= 0xDF
    ensures v / 64 * 64 + v % 64 == v
  {
  }

  lemma ThreeByteArith(v: int)
    requires 0x800 <= v < 0x10000
    requires !(0xD800 <= v < 0xE000)
    ensures var q := v / 64;
      q / 64 < 16
      && (q / 64 == 0 ==> q % 64 >= 0x20)
      && (q / 64 == 0xD ==> q % 64 < 0x20)
      && (q / 64 * 64 + q % 64) * 64 + v % 64 == v
  {
    var q := v / 64;
    assert q * 64 + v % 64 == v;
    assert 0x20 <= q < 0x400;
    assert q / 64 * 64 + q % 64 == q;
    assert !(0x360 <= q < 0x380);
  }

  lemma FourByteArith(v: int)
    requires 0x10000 <= v < 0x110000
    ensures var q := v / 64; var q' := q / 64;
      q' / 64 <= 4
      && (q' / 64 == 0 ==> q' % 64 >= 0x10)
      && (q' / 64 == 4 ==> q' % 64 < 0x10)
      && ((q' / 64 * 64 + q' % 64) * 64 + q % 64) * 64 + v % 64 == v
  {
    var q := v / 64;
    assert q * 64 + v % 64 == v;
    assert 0x400 <= q < 0x4400;
    var q' := q / 64;
    assert q' * 64 + q % 64 == q;
    assert 0x10 <= q' < 0x110;
    assert q' / 64 * 64 + q' % 64 == q';
  }

  lemma DecodeFirstOfEncodeChar(c: char, rest: seq<byte>)
    ensures DecodeFirst(EncodeChar(c) + rest) == Some((c, |EncodeChar(c)|))
  {
    var v := c as int;
    if v < 0x80 {
    } else if v < 0x800 {
      DecodeTwoBytes(c, rest);
    } else if v < 0x10000 {
      DecodeThreeBytes(c, rest);
    } else {
      DecodeFourBytes(c, rest);
    }
  }

  lemma DecodeTwoBytes(c: char, rest: seq<byte>)
    requires 0x80 <= c as int < 0x800
    ensures DecodeFirst(EncodeChar(c) + rest) == Some((c, 2))
  {
    var v := c as int;
    var b := EncodeChar(c) + rest;
    TwoByteArith(v);
    assert b[0] as int == 0xC0 + v / 64;
    assert b[1] as int == 0x80 + v % 64;
  }

  lemma DecodeThreeBytes(c: char, rest: seq<byte>)
    requires 0x800 <= c as int < 0x10000
    ensures DecodeFirst(EncodeChar(c) + rest) == Some((c, 3))
  {
    var v := c as int;
    var b := EncodeChar(c) + rest;
    ThreeByteArith(v);
    var q := v / 64;
    assert b[0] as int == 0xE0 + q / 64;
    assert b[1] as int == 0x80 + q % 64;
    assert b[2] as int == 0x80 + v % 64;
  }

  lemma DecodeFourBytes(c: char, rest: seq<byte>)
    requires 0x10000 <= c as int
    ensures DecodeFirst(EncodeChar(c) + rest) == Some((c, 4))
  {
    var v := c as int;
    var b := EncodeChar(c) + rest;
    FourByteArith(v);
    var q := v / 64;
    var q' := q / 64;
    assert b[0] as int == 0xF0 + q' / 64;
    assert b[1] as int == 0x80 + q' % 64;
    assert b[2] as int == 0x80 + q % 64;
    assert b[3] as int == 0x80 + v % 64;
  }

  /** The server's UTF-8 decoding inverts the client's encoding. */
  lemma {:induction false} Utf8RoundTrip(s: string)
    ensures Utf8Decode(Utf8Encode(s)) == Some(s)
  {
    if s != [] {
      var e := EncodeChar(s[0]);
      var rest := Utf8Encode(s[1..]);
      DecodeFirstOfEncodeChar(s[0], rest);
      assert (e + rest)[|e|..] == rest;
      Utf8RoundTrip(s[1..]);
      assert s == [s[0]] + s[1..];
    }
  }

  // ---------------------------------------------------------------------------------------
  // Base64, section 4 of RFC 4648

  /** The base64 alphabet. */
  function Digit(i: int): (c: char)
    requires 0 <= i < 64
    ensures c as int < 128 && c != '='
  {
    if i < 26 then ('A' as int + i) as char
    else if i < 52 then ('a' as int + i - 26) as char
    else if i < 62 then ('0' as int + i - 52) as char
    else if i == 62 then '+' else '/'
  }

  /** The value of an alphabet character, or 64 for any other character (which Python's
      non-strict decoder skips). */
  function DigitValue(c: char): (v: int)
    ensures 0 <= v <= 64
    ensures v < 64 ==> Digit(v) == c
  {
    if 'A' <= c <= 'Z' then c as int - 'A' as int
    else if 'a' <= c <= 'z' then c as int - 'a' as int + 26
    else if '0' <= c <= '9' then c as int - '0' as int + 52
    else if c == '+' then 62
    else if c == '/' then 63
    else 64
  }

  lemma DigitValueOfDigit(i: int)
    requires 0 <= i < 64
    ensures DigitValue(Digit(i)) == i
  {
  }

  /** Exactly the characters outside the alphabet have the value 64. */
  lemma DigitValueOutsideAlphabet(c: char)
    ensures DigitValue(c) == 64 <==> forall i :: 0 <= i < 64 ==> Digit(i) != c
  {
    if DigitValue(c) == 64 {
      forall i | 0 <= i < 64 ensures Digit(i) != c {
        DigitValueOfDigit(i);
      }
    }
  }

  /** The four digits of a full group of three bytes. */
  function Quad(b0: byte, b1: byte, b2: byte): string {
    var x0, x1, x2 := b0 as int, b1 as int, b2 as int;
    [Digit(x0 / 4), Digit(x0 % 4 * 16 + x1 / 16), Digit(x1 % 16 * 4 + x2 / 64), Digit(x2 % 64)]
  }

  /** The final group of a string whose length leaves one byte over: two digits, two pads. */
  function OneByteTail(b0: byte): string {
    var x0 := b0 as int;
    [Digit(x0 / 4), Digit(x0 % 4 * 16), '=', '=']
  }

  /** The final group of a string whose length leaves two bytes over: three digits, one pad. */
  function TwoByteTail(b0: byte, b1: byte): string {
    var x0, x1 := b0 as int, b1 as int;
    [Digit(x0 / 4), Digit(x0 % 4 * 16 + x1 / 16), Digit(x1 % 16 * 4), '=']
  }

  /** Base64 with `=` padding: every three bytes become four characters. */
  function Base64Encode(b: seq<byte>): (s: string)
    ensures |s| == (|b| + 2) / 3 * 4
    decreases |b|
  {
    if |b| == 0 then ""
    else if |b| == 1 then OneByteTail(b[0])
    else if |b| == 2 then TwoByteTail(b[0], b[1])
    else Quad(b[0], b[1], b[2]) + Base64Encode(b[3..])
  }

  predicate IsAscii(s: string) {
    forall i :: 0 <= i < |s| ==> s[i] as int < 128
  }

  lemma {:induction false} Base64EncodeIsAscii(b: seq<byte>)
    ensures IsAscii(Base64Encode(b))
    decreases |b|
  {
    if |b| >= 3 {
      Base64EncodeIsAscii(b[3..]);
      var s := Base64Encode(b);
      assert s[4..] == Base64Encode(b[3..]);
      forall i | 0 <= i < |s| ensures s[i] as int < 128 {
        if i >= 4 { assert s[i] == s[4..][i - 4]; }
      }
    }
  }

  /** The bound on the bits that the decoder carries over for a given position in a quad. */
  function CarryBound(quad: nat): nat {
    if quad == 0 then 1 else if quad == 1 then 64 else if quad == 2 then 16 else 4
  }

  function Prepend(x: byte, r: Option<seq<byte>>): Option<seq<byte>> {
    match r
    case None => None
    case Some(bs) => Some([x] + bs)
  }

  /** CPython's non-strict `binascii.a2b_base64`, character by character: `quad` is the position
      in the current quad, `carry` the bits left over from the previous character, `pads` the
      `=` seen since the last data character. Characters outside the alphabet are skipped; an `=`
      that completes a quad of at least two data characters ends the input; input that ends in the
      middle of a quad is an error ("Incorrect padding"). */
  function A2b(s: string, quad: nat, carry: int, pads: nat): Option<seq<byte>>
    requires quad < 4 && 0 <= carry < CarryBound(quad)
    decreases |s|
  {
    if s == [] then (if quad == 0 then Some([]) else None)
    else if s[0] == '=' then
      if quad >= 2 && quad + pads + 1 >= 4 then Some([])
      else A2b(s[1..], quad, carry, if quad >= 2 then pads + 1 else pads)
    else
      var v := DigitValue(s[0]);
      if v == 64 then A2b(s[1..], quad, carry, pads)
      else if quad == 0 then A2b(s[1..], 1, v, 0)
      else if quad == 1 then Prepend((carry * 4 + v / 16) as byte, A2b(s[1..], 2, v % 16, 0))
      else if quad == 2 then Prepend((carry * 16 + v / 4) as byte, A2b(s[1..], 3, v % 4, 0))
      else Prepend((carry * 64 + v) as byte, A2b(s[1..], 0, 0, 0))
  }

  /** `base64.b64decode(raw)` on a `str`: non-ASCII text raises before decoding starts. */
  function B64Decode(raw: string): Option<seq<byte>> {
    if IsAscii(raw) then A2b(raw, 0, 0, 0) else None
  }

  lemma QuadArith(b0: int, b1: int, b2: int)
    requires 0 <= b0 < 256 && 0 <= b1 < 256 && 0 <= b2 < 256
    ensures var d1, d2 := b0 % 4 * 16 + b1 / 16, b1 % 16 * 4 + b2 / 64;
      0 <= d1 < 64 && 0 <= d2 < 64
      && d1 % 16 == b1 / 16 && d2 % 4 == b2 / 64
      && b0 / 4 * 4 + d1 / 16 == b0 && b1 / 16 * 16 + d2 / 4 == b1 && b2 / 64 * 64 + b2 % 64 == b2
  {
  }

  /** A quad of four data characters from the start of a quad yields three bytes. */
  lemma A2bOfQuad(b0: byte, b1: byte, b2: byte, rest: string)
    ensures A2b(Quad(b0, b1, b2) + rest, 0, 0, 0) == Prepend(b0, Prepend(b1, Prepend(b2, A2b(rest, 0, 0, 0))))
  {
    var x0, x1, x2 := b0 as int, b1 as int, b2 as int;
    var d1, d2 := x0 % 4 * 16 + x1 / 16, x1 % 16 * 4 + x2 / 64;
    QuadArith(x0, x1, x2);
    var q := Quad(b0, b1, b2) + rest;
    assert q == [Digit(x0 / 4), Digit(d1), Digit(d2), Digit(x2 % 64)] + rest;
    DigitValueOfDigit(x0 / 4);
    DigitValueOfDigit(d1);
    DigitValueOfDigit(d2);
    DigitValueOfDigit(x2 % 64);
    var t1 := q[1..];
    var t2 := t1[1..];
    var t3 := t2[1..];
    assert q[0] == Digit(x0 / 4) && t1[0] == Digit(d1) && t2[0] == Digit(d2) && t3[0] == Digit(x2 % 64);
    assert t3[1..] == rest;
    assert A2b(t3, 3, x2 / 64, 0) == Prepend(b2, A2b(rest, 0, 0, 0));
    assert A2b(t2, 2, x1 / 16, 0) == Prepend(b1, A2b(t3, 3, x2 / 64, 0));
    assert A2b(t1, 1, x0 / 4, 0) == Prepend(b0, A2b(t2, 2, x1 / 16, 0));
    assert A2b(q, 0, 0, 0) == A2b(t1, 1, x0 / 4, 0);
  }

  lemma A2bOfOneByteTail(b0: byte)
    ensures A2b(OneByteTail(b0), 0, 0, 0) == Some([b0])
  {
    var x0 := b0 as int;
    var d1 := x0 % 4 * 16;
    var q := OneByteTail(b0);
    assert q == [Digit(x0 / 4), Digit(d1), '=', '='];
    DigitValueOfDigit(x0 / 4);
    DigitValueOfDigit(d1);
    var t1 := q[1..];
    var t2 := t1[1..];
    var t3 := t2[1..];
    assert t1[0] == Digit(d1) && t2 == ['=', '='] && t3 == ['='];
    assert A2b(t3, 2, 0, 1) == Some([]);
    assert A2b(t2, 2, 0, 0) == Some([]);
    assert d1 / 16 == x0 % 4 && d1 % 16 == 0;
    assert (x0 / 4 * 4 + d1 / 16) as byte == b0;
    assert A2b(t1, 1, x0 / 4, 0) == Prepend(b0, A2b(t2, 2, 0, 0));
    assert q[0] == Digit(x0 / 4);
    assert A2b(q, 0, 0, 0) == A2b(t1, 1, x0 / 4, 0);
    assert [b0] + [] == [b0];
  }

  lemma A2bOfTwoByteTail(b0: byte, b1: byte)
    ensures A2b(TwoByteTail(b0, b1), 0, 0, 0) == Some([b0, b1])
  {
    var x0, x1 := b0 as int, b1 as int;
    var d1, d2 := x0 % 4 * 16 + x1 / 16, x1 % 16 * 4;
    var q := TwoByteTail(b0, b1);
    assert q == [Digit(x0 / 4), Digit(d1), Digit(d2), '='];
    DigitValueOfDigit(x0 / 4);
    DigitValueOfDigit(d1);
    DigitValueOfDigit(d2);
    var t1 := q[1..];
    var t2 := t1[1..];
    var t3 := t2[1..];
    assert t1[0] == Digit(d1) && t2[0] == Digit(d2) && t3 == ['='];
    assert A2b(t3, 3, 0, 0) == Some([]);
    assert d2 / 4 == x1 % 16 && d2 % 4 == 0;
    assert (x1 / 16 * 16 + d2 / 4) as byte == b1;
    assert A2b(t2, 2, x1 / 16, 0) == Prepend(b1, A2b(t3, 3, 0, 0));
    assert d1 / 16 == x0 % 4 && d1 % 16 == x1 / 16;
    assert (x0 / 4 * 4 + d1 / 16) as byte == b0;
    assert A2b(t1, 1, x0 / 4, 0) == Prepend(b0, A2b(t2, 2, x1 / 16, 0));
    assert [b0] + ([b1] + []) == [b0, b1];
    assert q[0] == Digit(x0 / 4);
    assert A2b(q, 0, 0, 0) == A2b(t1, 1, x0 / 4, 0);
  }

  /** Python's decoder inverts the base64 encoding of any byte string. */
  lemma {:induction false} A2bOfBase64Encode(b: seq<byte>)
    ensures A2b(Base64Encode(b), 0, 0, 0) == Some(b)
    decreases |b|
  {
    if |b| == 1 {
      A2bOfOneByteTail(b[0]);
      assert b == [b[0]];
    } else if |b| == 2 {
      A2bOfTwoByteTail(b[0], b[1]);
      assert b == [b[0], b[1]];
    } else if |b| >= 3 {
      A2bOfQuad(b[0], b[1], b[2], Base64Encode(b[3..]));
      A2bOfBase64Encode(b[3..]);
      assert b == [b[0]] + ([b[1]] + ([b[2]] + b[3..]));
    }
  }

  /** What the import form sends as `raw_text`. */
  function EncodeImportText(text: string): string {
    Base64Encode(Utf8Encode(text))
  }

  /** What the import route makes of `raw_text`: `None` where decoding raises. */
  function DecodeImportText(raw: string): Option<string> {
    match B64Decode(raw)
    case None => None
    case Some(bytes) => Utf8Decode(bytes)
  }

  /** The server recovers exactly the text the client encoded. */
  lemma ImportTextRoundTrip(text: string)
    ensures DecodeImportText(EncodeImportText(text)) == Some(text)
    ensures EncodeImportText(text) == [] <==> text == []
  {
    var bytes := Utf8Encode(text);
    Base64EncodeIsAscii(bytes);
    A2bOfBase64Encode(bytes);
    Utf8RoundTrip(text);
  }
}
