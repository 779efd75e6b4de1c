/** Percent-encoding (RFC 3986, section 2.1) as `urllib.parse.quote` and `unquote` do it,
    and the query strings built from it. */
module Percent {
  import opened Text
  import opened Utf8

  /** Characters `quote` never encodes (RFC 3986, section 2.3). */
  predicate Unreserved(c: char) {
    'A' <= c <= 'Z' || 'a' <= c <= 'z' || '0' <= c <= '9' || c in "_.-~"
  }

  function HexDigit(n: int): (c: char)
    requires 0 <= n < 16
    ensures IsHex(c) && HexValue(c) == n
  {
    if n < 10 then ('0' as int + n) as char else ('A' as int + n - 10) as char
  }

  predicate IsHex(c: char) {
    '0' <= c <= '9' || 'A' <= c <= 'F' || 'a' <= c <= 'f'
  }

  function HexValue(c: char): (n: int)
    requires IsHex(c)
    ensures 0 <= n < 16
  {
    if c <= '9' then c as int - '0' as int
    else if c <= 'F' then c as int - 'A' as int + 10
    else c as int - 'a' as int + 10
  }

  /** The `safe` arguments this program passes: ASCII punctuation other than '%'. */
  predicate SafeSet(safe: string) {
    Ascii(safe) && '%' !in safe
  }

  predicate QuotedChar(c: char, safe: string) {
    Unreserved(c) || c in safe || c == '%'
  }

  function QuoteByte(b: Byte, safe: string): (s: string)
    requires SafeSet(safe)
    ensures s != ""
    ensures forall i :: 0 <= i < |s| ==> (s[i] as int) < 128 && QuotedChar(s[i], safe)
  {
    if b < 128 && (Unreserved(b as char) || (b as char) in safe) then [b as char]
    else ['%', HexDigit(b / 16), HexDigit(b % 16)]
  }

  /** An escaped byte is a '%' and its two digits, the higher one first, in capitals. */
  lemma QuoteByteExactly(b: Byte, safe: string)
    requires SafeSet(safe)
    ensures var hex := "0123456789ABCDEF";
      QuoteByte(b, safe) ==
        if 48 <= b <= 57 || 65 <= b <= 90 || 97 <= b <= 122 ||
           (b < 128 && ((b as char) in "_.-~" || (b as char) in safe)) then [b as char]
        else ['%', hex[b / 16], hex[b % 16]]
  {
    HexTable(b / 16);
    HexTable(b % 16);
  }

  lemma HexTable(n: int)
    requires 0 <= n < 16
    ensures HexDigit(n) == "0123456789ABCDEF"[n]
  {
  }

  function QuoteBytes(bytes: seq<Byte>, safe: string): (s: string)
    requires SafeSet(safe)
    ensures forall i :: 0 <= i < |s| ==> (s[i] as int) < 128 && QuotedChar(s[i], safe)
    ensures bytes != [] ==> s != ""
  {
    if bytes == [] then "" else QuoteByte(bytes[0], safe) + QuoteBytes(bytes[1..], safe)
  }

  /** `quote(s, safe=safe)`: ASCII, and nothing but unreserved and safe characters and escapes. */
  function Quote(s: string, safe: string): (q: string)
    requires SafeSet(safe)
    ensures Ascii(q)
    ensures forall i :: 0 <= i < |q| ==> QuotedChar(q[i], safe)
    ensures s != "" ==> q != ""
  {
    QuoteBytes(Encode(s), safe)
  }

  /** `unquote_to_bytes`: a '%' that is not followed by two hex digits stays as it is. */
  function UnquoteBytes(s: string): seq<Byte>
    requires Ascii(s)
  {
    if s == "" then []
    else if s[0] == '%' && |s| >= 3 && IsHex(s[1]) && IsHex(s[2]) then
      [16 * HexValue(s[1]) + HexValue(s[2])] + UnquoteBytes(s[3..])
    else [s[0] as int] + UnquoteBytes(s[1..])
  }

  /** Length of the longest ASCII prefix. */
  function AsciiRun(s: string): (n: nat)
    ensures n <= |s| && Ascii(s[..n])
    ensures n < |s| ==> (s[n] as int) >= 128
  {
    if s == "" || (s[0] as int) >= 128 then 0
    else
      var k := AsciiRun(s[1..]);
      assert s[..k + 1] == [s[0]] + s[1..][..k];
      k + 1
  }

  /** `unquote(s)`: every run of ASCII is decoded on its own, other characters are kept. */
  function Unquote(s: string): string
    decreases |s|
  {
    if s == "" then ""
    else
      var n := AsciiRun(s);
      if n == 0 then [s[0]] + Unquote(s[1..])
      else Decode(UnquoteBytes(s[..n]), "\U{FFFD}") + Unquote(s[n..])
  }

  lemma UnquoteAscii(s: string)
    requires Ascii(s)
    ensures Unquote(s) == Decode(UnquoteBytes(s), "\U{FFFD}")
  {
    var n := AsciiRun(s);
    assert s[..n] == s && s[n..] == "";
  }

  lemma {:induction false} UnquoteQuoteBytes(bytes: seq<Byte>, safe: string)
    requires SafeSet(safe)
    ensures Ascii(QuoteBytes(bytes, safe))
    ensures UnquoteBytes(QuoteBytes(bytes, safe)) == bytes
  {
    if bytes != [] {
      var b := bytes[0];
      var q := QuoteByte(b, safe);
      var rest := QuoteBytes(bytes[1..], safe);
      UnquoteQuoteBytes(bytes[1..], safe);
      var s := q + rest;
      assert s[|q|..] == rest;
      if |q| == 3 {
        assert s[1] == HexDigit(b / 16) && s[2] == HexDigit(b % 16);
        assert 16 * (b / 16) + b % 16 == b;
      }
    }
  }

  /** `unquote(quote(s, safe)) == s` for every Unicode text. */
  lemma UnquoteQuote(s: string, safe: string)
    requires SafeSet(safe)
    ensures Unquote(Quote(s, safe)) == s
  {
    UnquoteAscii(Quote(s, safe));
    UnquoteQuoteBytes(Encode(s), safe);
    DecodeEncode(s, "\U{FFFD}");
  }

  /** An escape somewhere in the text: a '%' followed by two hex digits. */
  predicate HasEscape(s: string) {
    exists i :: 0 <= i < |s| - 2 && EscapeAt(s, i)
  }

  predicate EscapeAt(s: string, i: nat)
    requires i + 2 < |s|
  {
    s[i] == '%' && IsHex(s[i + 1]) && IsHex(s[i + 2])
  }

  lemma EscapeInPart(s: string, from: nat, to: nat)
    requires from <= to <= |s|
    ensures HasEscape(s[from..to]) ==> HasEscape(s)
  {
    if HasEscape(s[from..to]) {
      var i :| 0 <= i < |s[from..to]| - 2 && EscapeAt(s[from..to], i);
      assert EscapeAt(s, from + i);
    }
  }

  lemma EscapeAfter(s: string, n: nat)
    requires n <= |s| && HasEscape(s)
    requires n < |s| ==> !IsHex(s[n])
    ensures HasEscape(s[..n]) || HasEscape(s[n..])
  {
    var i :| 0 <= i < |s| - 2 && EscapeAt(s, i);
    if i + 2 < n {
      assert EscapeAt(s[..n], i);
    } else {
      assert i >= n;
      assert EscapeAt(s[n..], i - n);
    }
  }

  lemma EscapeInTail(s: string)
    requires HasEscape(s) && !(|s| >= 3 && EscapeAt(s, 0))
    ensures HasEscape(s[1..])
  {
    var i :| 0 <= i < |s| - 2 && EscapeAt(s, i);
    assert EscapeAt(s[1..], i - 1);
  }

  lemma {:induction false} UnquoteBytesPlain(s: string)
    requires Ascii(s) && !HasEscape(s)
    ensures UnquoteBytes(s) == Encode(s)
  {
    hide HasEscape, IsHex;
    if s != "" {
      EscapeInPart(s, 1, |s|);
      assert s[1..|s|] == s[1..];
      UnquoteBytesPlain(s[1..]);
      if |s| >= 3 {
        NoEscapeAt(s);
      }
    }
  }

  lemma NoEscapeAt(s: string)
    requires |s| >= 3 && !HasEscape(s)
    ensures !EscapeAt(s, 0)
  {
  }

  /** A text without an escape is left alone. */
  lemma {:induction false} UnquotePlain(s: string)
    requires !HasEscape(s)
    ensures Unquote(s) == s
    decreases |s|
  {
    hide HasEscape, UnquoteBytes;
    if s != "" {
      var n := AsciiRun(s);
      assert s == s[..n] + s[n..];
      EscapeInPart(s, 0, n);
      assert s[0..n] == s[..n];
      EscapeInPart(s, n, |s|);
      assert s[n..|s|] == s[n..];
      if n == 0 {
        EscapeInPart(s, 1, |s|);
        assert s[1..|s|] == s[1..];
        UnquotePlain(s[1..]);
      } else {
        UnquoteBytesPlain(s[..n]);
        DecodeEncode(s[..n], "\U{FFFD}");
        UnquotePlain(s[n..]);
      }
    }
  }

  lemma {:induction false} DecodeShorter(b: seq<Byte>, bad: string)
    requires |bad| == 1
    ensures |Decode(b, bad)| <= |b|
    decreases |b|
  {
    if b != [] {
      var (text, used) := DecodeStep(b, bad);
      DecodeShorter(b[used..], bad);
    }
  }

  lemma {:induction false} UnquoteBytesShorter(s: string)
    requires Ascii(s)
    ensures |UnquoteBytes(s)| <= |s| && (HasEscape(s) ==> |UnquoteBytes(s)| < |s|)
  {
    hide HasEscape, IsHex;
    if s == "" {
      NothingToEscape();
    } else if |s| >= 3 && EscapeAt(s, 0) {
      UnquoteBytesShorter(s[3..]);
    } else {
      UnquoteBytesShorter(s[1..]);
      if HasEscape(s) {
        EscapeInTail(s);
      }
    }
  }

  lemma NothingToEscape()
    ensures !HasEscape("")
  {
  }

  lemma {:induction false} UnquoteShorter(s: string)
    ensures |Unquote(s)| <= |s| && (HasEscape(s) ==> |Unquote(s)| < |s|)
    decreases |s|
  {
    hide HasEscape, UnquoteBytes, Decode;
    if s == "" {
      NothingToEscape();
    } else {
      var n := AsciiRun(s);
      if HasEscape(s) {
        if n == 0 {
          EscapeInTail(s);
        } else {
          EscapeAfter(s, n);
        }
      }
      if n == 0 {
        UnquoteShorter(s[1..]);
      } else {
        UnquoteBytesShorter(s[..n]);
        DecodeShorter(UnquoteBytes(s[..n]), "\U{FFFD}");
        UnquoteShorter(s[n..]);
      }
    }
  }

  /** `unquote` leaves exactly the texts without an escape as they are. */
  lemma UnquoteExactly(s: string)
    ensures Unquote(s) == s <==> !HasEscape(s)
  {
    hide HasEscape, Unquote;
    UnquoteShorter(s);
    if !HasEscape(s) {
      UnquotePlain(s);
    }
  }

  // ---------------------------------------------------------------- query strings

  /** What one `key=value` chunk adds to the parameters. */
  function AddChunk(out: map<string, string>, chunk: string): map<string, string> {
    if chunk == "" then out else out[Before(chunk, '=') := Unquote(After(chunk, '='))]
  }

  function ChunkParams(chunks: seq<string>): map<string, string> {
    if chunks == [] then map[]
    else AddChunk(ChunkParams(chunks[..|chunks| - 1]), chunks[|chunks| - 1])
  }

  /** The parameters a query string carries; a repeated key keeps its last value. */
  function Params(query: string): map<string, string> {
    ChunkParams(Split(query, '&'))
  }

  /** `_params` */
  method ParseParams(query: string) returns (out: map<string, string>)
    ensures out == Params(query)
  {
    var chunks := Split(query, '&');
    out := map[];
    for i := 0 to |chunks|
      invariant out == ChunkParams(chunks[..i])
    {
      assert chunks[..i + 1][..i] == chunks[..i];
      if chunks[i] != "" {
        out := out[Before(chunks[i], '=') := Unquote(After(chunks[i], '='))];
      }
    }
    assert chunks[..|chunks|] == chunks;
  }

  /** `query&key=value`, or just the pair when it is the first. */
  function With(query: string, key: string, value: string): string {
    if query == "" then key + "=" + value else query + "&" + key + "=" + value
  }

  predicate KeyText(key: string) {
    key != "" && forall i :: 0 <= i < |key| ==> key[i] != '&' && key[i] != '=' && key[i] != '#'
  }

  predicate ValueText(value: string) {
    '&' !in value && '#' !in value
  }

  /** A value that may stand in a query without being quoted. */
  predicate RawValue(v: string) {
    ValueText(v) && !HasEscape(v)
  }

  lemma ChunkFacts(key: string, value: string)
    requires KeyText(key) && ValueText(value)
    ensures var chunk := key + "=" + value;
      && chunk != "" && '&' !in chunk && '#' !in chunk
      && Before(chunk, '=') == key && After(chunk, '=') == value
  {
    assert '=' !in key;
    assert key + "=" + value == key + ['='] + value;
    IndexOfAppend(key, '=', value);
  }

  lemma ChunkParamsAppend(parts: seq<string>, chunk: string)
    ensures ChunkParams(parts + [chunk]) == AddChunk(ChunkParams(parts), chunk)
  {
    assert (parts + [chunk])[..|parts|] == parts;
  }

  lemma NoParams()
    ensures Params("") == map[]
  {
    assert Split("", '&') == [] + [""];
    ChunkParamsAppend([], "");
  }

  lemma OneParam(chunk: string)
    requires '&' !in chunk
    ensures Params(chunk) == AddChunk(map[], chunk)
  {
    assert Split(chunk, '&') == [] + [chunk];
    ChunkParamsAppend([], chunk);
  }

  /** Appending a pair to a query sets exactly that parameter. */
  lemma ParamsWith(query: string, key: string, value: string)
    requires KeyText(key) && ValueText(value)
    ensures Params(With(query, key, value)) == Params(query)[key := Unquote(value)]
    ensures '#' !in query ==> '#' !in With(query, key, value)
  {
    hide Split, ChunkParams, Before, After, Unquote, KeyText, ValueText;
    var chunk := key + "=" + value;
    ChunkFacts(key, value);
    if query == "" {
      NoParams();
      OneParam(chunk);
    } else {
      SplitAppend(query, '&', chunk);
      assert With(query, key, value) == query + ['&'] + chunk;
      ChunkParamsAppend(Split(query, '&'), chunk);
    }
  }

  /** The three ways the link builders quote: everything, all but '/', all but ',' and '/'. */
  function QuoteAll(s: string): string {
    Quote(s, "")
  }

  function QuotePath(s: string): string {
    Quote(s, "/")
  }

  function QuoteList(s: string): string {
    Quote(s, ",/")
  }

  /** A quoted value is a legal query value, and the parameter set is the original text. */
  lemma ParamsWithQuoted(query: string, key: string, value: string, safe: string)
    requires KeyText(key) && SafeSet(safe) && '&' !in safe && '#' !in safe
    ensures Params(With(query, key, Quote(value, safe))) == Params(query)[key := value]
    ensures '#' !in query ==> '#' !in With(query, key, Quote(value, safe))
  {
    hide Quote, Unquote, Params, With, KeyText;
    var q := Quote(value, safe);
    assert forall i :: 0 <= i < |q| ==> QuotedChar(q[i], safe) && q[i] != '&' && q[i] != '#';
    UnquoteQuote(value, safe);
    ParamsWith(query, key, q);
  }

  /** A value written as it is. */
  lemma ParamsWithPlain(query: string, key: string, value: string)
    requires KeyText(key) && RawValue(value)
    ensures Params(With(query, key, value)) == Params(query)[key := value]
    ensures '#' !in query ==> '#' !in With(query, key, value)
  {
    UnquotePlain(value);
    ParamsWith(query, key, value);
  }

  lemma ParamsWithAll(query: string, key: string, value: string)
    requires KeyText(key)
    ensures Params(With(query, key, QuoteAll(value))) == Params(query)[key := value]
    ensures '#' !in query ==> '#' !in With(query, key, QuoteAll(value))
  {
    hide KeyText, Params, With, Quote;
    ParamsWithQuoted(query, key, value, "");
  }

  lemma ParamsWithPath(query: string, key: string, value: string)
    requires KeyText(key)
    ensures Params(With(query, key, QuotePath(value))) == Params(query)[key := value]
    ensures '#' !in query ==> '#' !in With(query, key, QuotePath(value))
  {
    hide KeyText, Params, With, Quote;
    ParamsWithQuoted(query, key, value, "/");
  }

  lemma ParamsWithList(query: string, key: string, value: string)
    requires KeyText(key)
    ensures Params(With(query, key, QuoteList(value))) == Params(query)[key := value]
    ensures '#' !in query ==> '#' !in With(query, key, QuoteList(value))
  {
    hide KeyText, Params, With, Quote;
    ParamsWithQuoted(query, key, value, ",/");
  }
}
