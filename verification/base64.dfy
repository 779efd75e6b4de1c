/** Base64 (RFC 4648, sections 4 and 5) as Python's `base64` module encodes and decodes it. */
module Base64 {
  import opened Wrappers
  import opened Text
  import opened Utf8

  /** The character of a 6-bit value in the standard alphabet. */
  function Sym(n: int): (c: char)
    requires 0 <= n < 64
    ensures SymValue(c) == n && c != '='
  {
    if n < 26 then ('A' as int + n) as char
    else if n < 52 then ('a' as int + n - 26) as char
    else if n < 62 then ('0' as int + n - 52) as char
    else if n == 62 then '+' else '/'
  }

  /** The 6-bit value of a character; 64 when it is not in the alphabet. */
  function SymValue(c: char): (n: int)
    ensures 0 <= n <= 64
  {
    if 'A' <= c <= 'Z' then c as int - 'A' as int
    else if 'a' <= c <= 'z' then c as int - 'a' as int + 26
    else if '0' <= c <= '9' then c as int - '0' as int + 52
    else if c == '+' then 62
    else if c == '/' then 63
    else 64
  }

  /** The alphabet: capitals, small letters, digits, and two signs. */
  lemma SymTable(n: int)
    requires 0 <= n < 64
    ensures Sym(0) == 'A' && Sym(26) == 'a' && Sym(52) == '0' && Sym(62) == '+' && Sym(63) == '/'
    ensures n !in {0, 26, 52, 62, 63} ==> Sym(n) as int == Sym(n - 1) as int + 1
  {
  }

  predicate Alphabet(s: string) {
    forall i :: 0 <= i < |s| ==> SymValue(s[i]) < 64
  }

  predicate Sextets(v: seq<int>) {
    forall i :: 0 <= i < |v| ==> 0 <= v[i] < 64
  }

  /** The bits of `b` in groups of six, zero bits filling up the last group. */
  function Regroup(b: seq<Byte>): (v: seq<int>)
    ensures Sextets(v)
    ensures |v| == (4 * |b| + 2) / 3
  {
    if |b| == 0 then []
    else if |b| == 1 then [b[0] / 4, b[0] % 4 * 16]
    else if |b| == 2 then [b[0] / 4, b[0] % 4 * 16 + b[1] / 16, b[1] % 16 * 4]
    else [b[0] / 4, b[0] % 4 * 16 + b[1] / 16, b[1] % 16 * 4 + b[2] / 64, b[2] % 64] + Regroup(b[3..])
  }

  /** A full group of three bytes and its four values are the same 24-bit number, first byte first. */
  lemma RegroupNumber(b: seq<Byte>)
    requires |b| >= 3
    ensures var v := Regroup(b);
      && 262144 * v[0] + 4096 * v[1] + 64 * v[2] + v[3] == 65536 * (b[0] as int) + 256 * (b[1] as int) + (b[2] as int)
      && v[4..] == Regroup(b[3..])
  {
  }

  /** The encoding without its padding. */
  function Body(b: seq<Byte>): (s: string)
    ensures Alphabet(s)
    ensures |s| == (4 * |b| + 2) / 3
  {
    var v := Regroup(b);
    seq(|v|, i requires 0 <= i < |v| => Sym(v[i]))
  }

  /** `"=" * (-n % 4)` */
  function Padding(n: nat): string {
    Equals((4 - n % 4) % 4)
  }

  function Equals(n: nat): string {
    if n == 0 then "" else Equals(n - 1) + "="
  }

  /** `b64encode(b)` */
  function Encode64(b: seq<Byte>): string {
    Body(b) + Padding(|Body(b)|)
  }

  /** `'+'` and `'/'` become `'-'` and `'_'`. */
  function ToUrl(s: string): (r: string)
    ensures |r| == |s|
    ensures forall i :: 0 <= i < |s| ==> r[i] == if s[i] == '+' then '-' else if s[i] == '/' then '_' else s[i]
  {
    seq(|s|, i requires 0 <= i < |s| => if s[i] == '+' then '-' else if s[i] == '/' then '_' else s[i])
  }

  function FromUrl(s: string): (r: string)
    ensures |r| == |s|
    ensures forall i :: 0 <= i < |s| ==> r[i] == if s[i] == '-' then '+' else if s[i] == '_' then '/' else s[i]
  {
    seq(|s|, i requires 0 <= i < |s| => if s[i] == '-' then '+' else if s[i] == '_' then '/' else s[i])
  }

  /** `s.rstrip("=")` */
  function StripPad(s: string): string {
    if s == "" || s[|s| - 1] != '=' then s else StripPad(s[..|s| - 1])
  }

  /** `urlsafe_b64encode(b).decode().rstrip("=")` */
  function EncodeUrlNoPad(b: seq<Byte>): string {
    StripPad(ToUrl(Encode64(b)))
  }

  const PAD := 65

  /** What the decoder sees in each character: a 6-bit value, 64 for a foreign one, or PAD. */
  function Values(s: string): (v: seq<int>)
    ensures |v| == |s|
    ensures forall i :: 0 <= i < |s| ==> v[i] == if s[i] == '=' then PAD else SymValue(s[i])
  {
    seq(|s|, i requires 0 <= i < |s| => if s[i] == '=' then PAD else SymValue(s[i]))
  }

  /** Decoder state machine: `quad` characters of the current group seen, `left` their unused
      bits, `pads` the run of '=' signs. Foreign characters are skipped, a complete padding
      ends the input, and an incomplete last group is an error. */
  function Scan(v: seq<int>, quad: nat, left: nat, pads: nat): Option<seq<Byte>>
    requires Scannable(v)
    requires Pending(quad, left)
    decreases |v|
  {
    if v == [] then (if quad == 0 then Some([]) else None)
    else if v[0] == PAD then
      if quad >= 2 && quad + pads + 1 >= 4 then Some([])
      else Scan(v[1..], quad, left, if quad >= 2 then pads + 1 else pads)
    else if v[0] == 64 then Scan(v[1..], quad, left, pads)
    else
      var rest := Scan(v[1..], if quad == 3 then 0 else quad + 1, Unused(quad, v[0]), 0);
      if quad == 0 then rest else Emit(Completed(quad, left, v[0]), rest)
  }

  /** The byte that value `x` completes at position `quad` of its group. */
  function Completed(quad: nat, left: nat, x: int): Byte
    requires 0 < quad && Pending(quad, left) && 0 <= x < 64
  {
    if quad == 1 then 4 * left + x / 16
    else if quad == 2 then 16 * left + x / 4
    else 64 * left + x
  }

  /** The bits of `x` that belong to the next byte. */
  function Unused(quad: nat, x: int): (left: nat)
    requires quad < 4 && 0 <= x < 64
    ensures Pending(if quad == 3 then 0 else quad + 1, left)
  {
    if quad == 0 then x else if quad == 1 then x % 16 else if quad == 2 then x % 4 else 0
  }

  /** The bits left over from `quad` characters of a group. */
  predicate Pending(quad: nat, left: nat) {
    || (quad == 0 && left == 0)
    || (quad == 1 && left < 64)
    || (quad == 2 && left < 16)
    || (quad == 3 && left < 4)
  }

  function Emit(b: Byte, rest: Option<seq<Byte>>): Option<seq<Byte>> {
    if rest.Some? then Some([b] + rest.value) else None
  }

  /** `b64decode(s)`; None stands for the error. */
  function Decode64(s: string): Option<seq<Byte>> {
    if Ascii(s) then Scan(Values(s), 0, 0, 0) else None
  }

  /** `urlsafe_b64decode(s)` */
  function DecodeUrl(s: string): Option<seq<Byte>> {
    Decode64(FromUrl(s))
  }

  // ---------------------------------------------------------------- round trips

  predicate Scannable(v: seq<int>) {
    forall i :: 0 <= i < |v| ==> 0 <= v[i] <= PAD
  }

  lemma ScanValue(x: int, rest: seq<int>, quad: nat, left: nat)
    requires 0 <= x < 64 && Scannable(rest) && Pending(quad, left)
    ensures Scannable([x] + rest)
    ensures var r := Scan(rest, if quad == 3 then 0 else quad + 1, Unused(quad, x), 0);
      Scan([x] + rest, quad, left, 0) == if quad == 0 then r else Emit(Completed(quad, left, x), r)
  {
    hide Unused, Completed, Emit;
    assert ([x] + rest)[1..] == rest;
    assert ([x] + rest)[0] == x;
  }

  /** A complete group of four values. */
  lemma ScanFour(v0: int, v1: int, v2: int, v3: int, rest: seq<int>)
    requires 0 <= v0 < 64 && 0 <= v1 < 64 && 0 <= v2 < 64 && 0 <= v3 < 64
    requires Scannable(rest)
    ensures Scan([v0, v1, v2, v3] + rest, 0, 0, 0) ==
      Emit(4 * v0 + v1 / 16, Emit(16 * (v1 % 16) + v2 / 4, Emit(64 * (v2 % 4) + v3, Scan(rest, 0, 0, 0))))
  {
    hide Scan, Emit;
    ScanValue(v3, rest, 3, v2 % 4);
    ScanValue(v2, [v3] + rest, 2, v1 % 16);
    ScanValue(v1, [v2] + ([v3] + rest), 1, v0);
    ScanValue(v0, [v1] + ([v2] + ([v3] + rest)), 0, 0);
    assert [v0, v1, v2, v3] + rest == [v0] + ([v1] + ([v2] + ([v3] + rest)));
  }

  lemma ScanPads(left: nat)
    ensures left < 16 ==> Scan([PAD, PAD], 2, left, 0) == Some([])
    ensures left < 4 ==> Scan([PAD], 3, left, 0) == Some([])
  {
    assert [PAD, PAD][1..] == [PAD];
    if left < 16 {
      assert Scan([PAD], 2, left, 1) == Some([]);
    }
  }

  /** A padded group of two values. */
  lemma ScanTwo(v0: int, v1: int)
    requires 0 <= v0 < 64 && 0 <= v1 < 64
    ensures Scan([v0, v1, PAD, PAD], 0, 0, 0) == Some([4 * v0 + v1 / 16])
  {
    hide Scan;
    var pads := [PAD, PAD];
    ScanValue(v1, pads, 1, v0);
    ScanValue(v0, [v1] + pads, 0, 0);
    ScanPads(v1 % 16);
    assert [v0, v1, PAD, PAD] == [v0] + ([v1] + pads);
    assert [4 * v0 + v1 / 16] + [] == [4 * v0 + v1 / 16];
  }

  /** A padded group of three values. */
  lemma ScanThree(v0: int, v1: int, v2: int)
    requires 0 <= v0 < 64 && 0 <= v1 < 64 && 0 <= v2 < 64
    ensures Scan([v0, v1, v2, PAD], 0, 0, 0) == Some([4 * v0 + v1 / 16, 16 * (v1 % 16) + v2 / 4])
  {
    hide Scan;
    ScanValue(v2, [PAD], 2, v1 % 16);
    ScanValue(v1, [v2] + [PAD], 1, v0);
    ScanValue(v0, [v1] + ([v2] + [PAD]), 0, 0);
    ScanPads(v2 % 4);
    assert [v0, v1, v2, PAD] == [v0] + ([v1] + ([v2] + [PAD]));
    var x, y: Byte := 4 * v0 + v1 / 16, 16 * (v1 % 16) + v2 / 4;
    assert [x] + ([y] + []) == [x, y];
  }

  /** Regrouping three bytes into four values loses nothing. */
  lemma Regrouped(x: Byte, y: Byte, z: Byte)
    ensures 4 * (x / 4) + (x % 4 * 16 + y / 16) / 16 == x
    ensures 16 * ((x % 4 * 16 + y / 16) % 16) + (y % 16 * 4 + z / 64) / 4 == y
    ensures 64 * ((y % 16 * 4 + z / 64) % 4) + z % 64 == z
  {
  }

  lemma ScanBytes(x: Byte, y: Byte, z: Byte, rest: seq<int>)
    requires Scannable(rest)
    ensures Scan([x / 4, x % 4 * 16 + y / 16, y % 16 * 4 + z / 64, z % 64] + rest, 0, 0, 0) ==
      Emit(x, Emit(y, Emit(z, Scan(rest, 0, 0, 0))))
  {
    hide Scan, Emit;
    ScanFour(x / 4, x % 4 * 16 + y / 16, y % 16 * 4 + z / 64, z % 64, rest);
    Regrouped(x, y, z);
  }

  function Pads(n: nat): seq<int> {
    seq((4 - n % 4) % 4, i => PAD)
  }

  lemma PadCount(n: nat)
    ensures n % 4 == 0 ==> Pads(n) == []
    ensures n % 4 == 2 ==> Pads(n) == [PAD, PAD]
    ensures n % 4 == 3 ==> Pads(n) == [PAD]
    ensures Pads(n + 4) == Pads(n)
  {
  }

  lemma ScanOneByte(x: Byte)
    ensures Scan(Regroup([x]) + [PAD, PAD], 0, 0, 0) == Some([x])
  {
    assert Regroup([x]) + [PAD, PAD] == [x / 4, x % 4 * 16, PAD, PAD];
    ScanTwo(x / 4, x % 4 * 16);
    Regrouped(x, 0, 0);
  }

  lemma ScanTwoBytes(x: Byte, y: Byte)
    ensures Scan(Regroup([x, y]) + [PAD], 0, 0, 0) == Some([x, y])
  {
    assert Regroup([x, y]) + [PAD] == [x / 4, x % 4 * 16 + y / 16, y % 16 * 4, PAD];
    ScanThree(x / 4, x % 4 * 16 + y / 16, y % 16 * 4);
    Regrouped(x, y, 0);
  }

  lemma RegroupStep(b: seq<Byte>)
    requires |b| >= 3
    ensures |Regroup(b)| == 4 + |Regroup(b[3..])|
    ensures Regroup(b) == [b[0] / 4, b[0] % 4 * 16 + b[1] / 16, b[1] % 16 * 4 + b[2] / 64, b[2] % 64] + Regroup(b[3..])
  {
  }

  lemma {:induction false} ScanRegroup(b: seq<Byte>)
    ensures Scan(Regroup(b) + Pads(|Regroup(b)|), 0, 0, 0) == Some(b)
    decreases |b|, 1
  {
    PadCount(|Regroup(b)|);
    if |b| == 0 {
    } else if |b| == 1 {
      assert b == [b[0]];
      ScanOneByte(b[0]);
    } else if |b| == 2 {
      assert b == [b[0], b[1]];
      ScanTwoBytes(b[0], b[1]);
    } else {
      ScanMore(b);
    }
  }

  lemma ScanGroup(x: Byte, y: Byte, z: Byte, tail: seq<int>, b: seq<Byte>)
    requires Scannable(tail) && Scan(tail, 0, 0, 0) == Some(b)
    ensures Scan([x / 4, x % 4 * 16 + y / 16, y % 16 * 4 + z / 64, z % 64] + tail, 0, 0, 0) == Some([x, y, z] + b)
  {
    hide Scan;
    ScanBytes(x, y, z, tail);
    assert [x] + ([y] + ([z] + b)) == [x, y, z] + b;
  }

  lemma {:induction false} ScanMore(b: seq<Byte>)
    requires |b| >= 3
    ensures Scan(Regroup(b) + Pads(|Regroup(b)|), 0, 0, 0) == Some(b)
    decreases |b|, 0
  {
    hide Scan, Regroup;
    var x, y, z := b[0], b[1], b[2];
    var rest := Regroup(b[3..]);
    var group := [x / 4, x % 4 * 16 + y / 16, y % 16 * 4 + z / 64, z % 64];
    assert Regroup(b) + Pads(|Regroup(b)|) == group + (rest + Pads(|rest|)) by {
      RegroupStep(b);
      PadCount(|rest|);
    }
    ScanRegroup(b[3..]);
    ScanGroup(x, y, z, rest + Pads(|rest|), b[3..]);
    assert [x, y, z] + b[3..] == b;
  }

  lemma {:induction false} ValuesEquals(n: nat)
    ensures Values(Equals(n)) == seq(n, i => PAD)
  {
    if n > 0 {
      ValuesEquals(n - 1);
    }
  }

  lemma ScanEncode(b: seq<Byte>)
    ensures Scan(Values(Encode64(b)), 0, 0, 0) == Some(b)
  {
    hide Scan, Regroup, SymValue, Equals;
    var body := Body(b);
    ValuesEquals((4 - |body| % 4) % 4);
    assert Values(Encode64(b)) == Regroup(b) + Pads(|Regroup(b)|);
    ScanRegroup(b);
  }

  lemma AlphabetAscii(s: string)
    requires Alphabet(s)
    ensures Ascii(s)
  {
    forall i | 0 <= i < |s|
      ensures (s[i] as int) < 128
    {
      assert SymValue(s[i]) < 64;
    }
  }

  lemma {:induction false} AsciiEquals(n: nat)
    ensures Ascii(Equals(n))
  {
    if n > 0 {
      AsciiEquals(n - 1);
    }
  }

  /** Standard base64 decodes to what was encoded. */
  lemma DecodeEncode64(b: seq<Byte>)
    ensures Decode64(Encode64(b)) == Some(b)
  {
    hide Scan, Body, SymValue;
    AlphabetAscii(Body(b));
    AsciiEquals((4 - |Body(b)| % 4) % 4);
    ScanEncode(b);
  }

  lemma StripOne(t: string)
    ensures StripPad(t + "=") == StripPad(t)
  {
    assert (t + "=")[..|t|] == t;
  }

  lemma {:induction false} StripPadEquals(s: string, n: nat)
    requires '=' !in s
    ensures StripPad(s + Equals(n)) == s
  {
    if n == 0 {
      assert s + Equals(0) == s;
    } else {
      hide StripPad;
      StripPadEquals(s, n - 1);
      assert s + Equals(n) == s + Equals(n - 1) + "=";
      StripOne(s + Equals(n - 1));
    }
  }

  predicate UrlAlphabet(s: string) {
    forall i :: 0 <= i < |s| ==> SymValue(s[i]) < 62 || s[i] == '-' || s[i] == '_'
  }

  lemma ToUrlAlphabet(body: string)
    requires Alphabet(body)
    ensures UrlAlphabet(ToUrl(body)) && '=' !in ToUrl(body) && FromUrl(ToUrl(body)) == body
  {
    forall i | 0 <= i < |body|
      ensures var u := ToUrl(body);
        (SymValue(u[i]) < 62 || u[i] == '-' || u[i] == '_') && u[i] != '=' && FromUrl(u)[i] == body[i]
    {
      assert SymValue(body[i]) < 64;
    }
  }

  lemma {:induction false} TranslateEquals(s: string, n: nat)
    ensures ToUrl(s + Equals(n)) == ToUrl(s) + Equals(n)
    ensures FromUrl(s + Equals(n)) == FromUrl(s) + Equals(n)
  {
    if n > 0 {
      TranslateEquals(s, n - 1);
      assert s + Equals(n) == s + Equals(n - 1) + "=";
      var t := s + Equals(n - 1);
      assert ToUrl(t + "=") == ToUrl(t) + "=";
      assert FromUrl(t + "=") == FromUrl(t) + "=";
    }
  }

  /** The unpadded URL form is the body with the two substitutions. */
  lemma EncodeUrlBody(b: seq<Byte>)
    ensures EncodeUrlNoPad(b) == ToUrl(Body(b)) && UrlAlphabet(EncodeUrlNoPad(b))
  {
    var body := Body(b);
    var n := (4 - |body| % 4) % 4;
    ToUrlAlphabet(body);
    TranslateEquals(body, n);
    StripPadEquals(ToUrl(body), n);
  }

  /** Re-padding the unpadded URL form (`s + "=" * (-len(s) % 4)`) gives back the bytes. */
  lemma DecodeUrlNoPad(b: seq<Byte>)
    ensures var s := EncodeUrlNoPad(b); DecodeUrl(s + Padding(|s|)) == Some(b)
  {
    var body := Body(b);
    hide Scan, Body, SymValue, Equals, EncodeUrlNoPad, FromUrl, ToUrl;
    EncodeUrlBody(b);
    ToUrlAlphabet(body);
    TranslateEquals(ToUrl(body), (4 - |body| % 4) % 4);
    DecodeEncode64(b);
  }
}
