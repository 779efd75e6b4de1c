/** UTF-8 (RFC 3629): `str.encode()` and `bytes.decode("utf-8", errors)`. */
module Utf8 {
  import opened Text

  type Byte = x: int | 0 <= x < 256

  function EncodeChar(c: char): (b: seq<Byte>)
    ensures 1 <= |b| <= 4
  {
    var x := c as int;
    if x < 0x80 then [x]
    else if x < 0x800 then [0xC0 + x / 64, 0x80 + x % 64]
    else if x < 0x1_0000 then [0xE0 + x / 4096, 0x80 + x / 64 % 64, 0x80 + x % 64]
    else [0xF0 + x / 262144, 0x80 + x / 4096 % 64, 0x80 + x / 64 % 64, 0x80 + x % 64]
  }

  function Encode(s: string): seq<Byte> {
    if s == "" then [] else EncodeChar(s[0]) + Encode(s[1..])
  }

  predicate Continuation(b: Byte) {
    0x80 <= b < 0xC0
  }

  /** The second byte a lead byte allows: no overlong forms, no surrogates, nothing past U+10FFFF. */
  predicate SecondOk(lead: Byte, b: Byte) {
    && Continuation(b)
    && (lead == 0xE0 ==> b >= 0xA0)
    && (lead == 0xED ==> b < 0xA0)
    && (lead == 0xF0 ==> b >= 0x90)
    && (lead == 0xF4 ==> b < 0x90)
  }

  /** One decoding step: the text it yields and how many bytes it uses up. An ill-formed
      prefix yields `bad` (U+FFFD for "replace", nothing for "ignore") for its longest
      well-formed part. */
  function DecodeStep(b: seq<Byte>, bad: string): (r: (string, nat))
    requires b != []
    ensures 1 <= r.1 <= |b|
  {
    var b0: int := b[0];
    if b0 < 0x80 then ([b0 as char], 1)
    else if b0 < 0xC2 || b0 > 0xF4 || |b| < 2 || !SecondOk(b0, b[1]) then (bad, 1)
    else
      var c1: int := b[1] - 0x80;
      if b0 < 0xE0 then ([Scalar(0, 0, b0 - 0xC0, c1)], 2)
      else if |b| < 3 || !Continuation(b[2]) then (bad, 2)
      else
        var c2: int := b[2] - 0x80;
        if b0 < 0xF0 then ([Scalar(0, b0 - 0xE0, c1, c2)], 3)
        else if |b| < 4 || !Continuation(b[3]) then (bad, 3)
        else ([Scalar(b0 - 0xF0, c1, c2, b[3] - 0x80)], 4)
  }

  predicate IsScalar(x: int) {
    0 <= x < 0xD800 || 0xE000 <= x < 0x11_0000
  }

  /** The character with the given base-64 digits. */
  function Scalar(d3: int, d2: int, d1: int, d0: int): char
    requires IsScalar(262144 * d3 + 4096 * d2 + 64 * d1 + d0)
  {
    (262144 * d3 + 4096 * d2 + 64 * d1 + d0) as char
  }

  /** `b.decode("utf-8", errors)` */
  function Decode(b: seq<Byte>, bad: string): string
    decreases |b|
  {
    if b == [] then ""
    else
      var (text, used) := DecodeStep(b, bad);
      text + Decode(b[used..], bad)
  }

  /** The base-64 digits of a code point determine it. */
  lemma Digits(x: int)
    requires 0 <= x < 0x11_0000
    ensures x == 262144 * (x / 262144) + 4096 * (x / 4096 % 64) + 64 * (x / 64 % 64) + x % 64
    ensures x < 0x800 ==> x == 64 * (x / 64) + x % 64
    ensures x < 0x1_0000 ==> x == 4096 * (x / 4096) + 64 * (x / 64 % 64) + x % 64
  {
  }

  lemma DecodeStepEncode(c: char, rest: seq<Byte>, bad: string)
    ensures DecodeStep(EncodeChar(c) + rest, bad) == ([c], |EncodeChar(c)|)
  {
    var x := c as int;
    var e := EncodeChar(c);
    var b := e + rest;
    Digits(x);
    assert b[0] == e[0];
    if x >= 0x80 {
      assert b[1] == e[1];
    }
    if x >= 0x800 {
      assert b[2] == e[2];
    }
    if x >= 0x1_0000 {
      assert b[3] == e[3];
    }
  }

  /** Decoding undoes encoding for every text. */
  lemma {:induction false} DecodeEncode(s: string, bad: string)
    ensures Decode(Encode(s), bad) == s
  {
    if s != "" {
      var e := EncodeChar(s[0]);
      DecodeStepEncode(s[0], Encode(s[1..]), bad);
      assert (e + Encode(s[1..]))[|e|..] == Encode(s[1..]);
      DecodeEncode(s[1..], bad);
    }
  }

  /** ASCII text is its own encoding. */
  function AsciiBytes(s: string): (b: seq<Byte>)
    requires Ascii(s)
    ensures |b| == |s|
  {
    seq(|s|, i requires 0 <= i < |s| => s[i] as int)
  }

  lemma {:induction false} EncodeAscii(s: string)
    requires Ascii(s)
    ensures Encode(s) == AsciiBytes(s)
  {
    if s != "" {
      EncodeAscii(s[1..]);
    }
  }
}
