/** Two readers: YAML 1.2 with its core schema (YAML 1.2.2, section 10.3.2), and YAML 1.1 as
    PyYAML's `safe_load` resolves it, the reader app/subfmt.py:583 names. */
module YamlSchemas {
  import opened Text
  import opened Yaml
  import opened YamlReader
  import opened YamlRoundTrip
  import opened YamlDocuments
  import Decimal

  predicate Digits(s: string) {
    s != "" && Decimal.AllDigits(s)
  }

  predicate OneSign(s: string) {
    s != "" && (s[0] == '-' || s[0] == '+')
  }

  function Unsigned(s: string): string {
    if OneSign(s) then s[1..] else s
  }

  /** Position of the exponent letter, or |s|. */
  function ExponentAt(s: string): (i: nat)
    ensures i <= |s|
    ensures i < |s| ==> s[i] == 'e' || s[i] == 'E'
    ensures forall j :: 0 <= j < i ==> s[j] != 'e' && s[j] != 'E'
  {
    if s == "" || s[0] == 'e' || s[0] == 'E' then 0 else 1 + ExponentAt(s[1..])
  }

  function Mantissa(s: string): string {
    Unsigned(s)[..ExponentAt(Unsigned(s))]
  }

  /** The exponent with its letter, or "". */
  function Exponent(s: string): string {
    Unsigned(s)[ExponentAt(Unsigned(s))..]
  }

  predicate IsOctal(c: char) {
    '0' <= c <= '7'
  }

  predicate IsHexDigit(c: char) {
    IsDigit(c) || 'a' <= c <= 'f' || 'A' <= c <= 'F'
  }

  /** Printable characters, without the line breaks both versions know. */
  predicate Printable(c: char) {
    c == '\t' || ' ' <= c <= '~' || c == '\U{85}' || '\U{A0}' <= c <= '\U{D7FF}' || '\U{E000}' <= c <= '\U{FFFD}' ||
    '\U{10000}' <= c
  }

  // ---------------------------------------------------------------- YAML 1.2, core schema

  function HexDigitValue(c: char): int
    requires IsHexDigit(c)
  {
    if c <= '9' then c as int - '0' as int
    else if c <= 'F' then c as int - 'A' as int + 10
    else c as int - 'a' as int + 10
  }

  predicate IsBased(s: string, prefix: string, digit: char -> bool) {
    |s| > 2 && s[..2] == prefix && forall i :: 2 <= i < |s| ==> digit(s[i])
  }

  function BasedValue(s: string, base: int): int
    requires forall i :: 0 <= i < |s| ==> IsHexDigit(s[i])
  {
    if s == "" then 0 else base * BasedValue(s[..|s| - 1], base) + HexDigitValue(s[|s| - 1])
  }

  predicate CoreNumber(s: string) {
    var m := Mantissa(s);
    && (Exponent(s) != "" ==> Digits(Unsigned(Exponent(s)[1..])))
    && if '.' in m then m != "." && Decimal.AllDigits(Before(m, '.')) && Decimal.AllDigits(After(m, '.'))
       else Digits(m)
  }

  predicate CoreFloat(s: string) {
    FloatSpelling(s) &&
    (s in {".nan", ".NaN", ".NAN"} || Unsigned(s) in {".inf", ".Inf", ".INF"} || CoreNumber(s))
  }

  /** The value a plain scalar stands for. */
  function CoreResolve(s: string): (v: Scalar)
    ensures Textual(v) ==> v.text == s
  {
    if s in {"", "~", "null", "Null", "NULL"} then Null
    else if s in {"true", "True", "TRUE"} then Bool(true)
    else if s in {"false", "False", "FALSE"} then Bool(false)
    else if Decimal.IsSigned(s) then Int(Decimal.SignedValue(s))
    else if IsBased(s, "0o", IsOctal) then Int(BasedValue(s[2..], 8))
    else if IsBased(s, "0x", IsHexDigit) then Int(BasedValue(s[2..], 16))
    else if CoreFloat(s) then Float(s)
    else Str(s)
  }

  const CORE: Schema := Dialect(CoreResolve, c => Printable(c) && c != '\U{FEFF}')

  // ---------------------------------------------------------------- YAML 1.1, safe_load

  /** `[0-9_]*` */
  predicate DigitRun(s: string) {
    forall i :: 0 <= i < |s| ==> IsDigit(s[i]) || s[i] == '_'
  }

  /** `[0-9][0-9_]*` */
  predicate DigitWord(s: string) {
    s != "" && IsDigit(s[0]) && DigitRun(s)
  }

  /** `[0-5]?[0-9]` */
  predicate Sixtieth(s: string) {
    (|s| == 1 && IsDigit(s[0])) || (|s| == 2 && '0' <= s[0] <= '5' && IsDigit(s[1]))
  }

  /** `[0-9][0-9_]*(:[0-5]?[0-9])+` */
  predicate Sexagesimal(s: string) {
    var parts := Split(s, ':');
    |parts| >= 2 && DigitWord(parts[0]) && forall i :: 1 <= i < |parts| ==> Sixtieth(parts[i])
  }

  /** `[eE][-+][0-9]+`, or nothing. */
  predicate SafeExponent(s: string) {
    s == "" || (|s| >= 3 && OneSign(s[1..]) && Digits(s[2..]))
  }

  predicate SafeNumber(s: string) {
    var m := Mantissa(s);
    && SafeExponent(Exponent(s)) && '.' in m
    && if Before(m, '.') == "" then !OneSign(s) && DigitWord(After(m, '.'))
       else DigitWord(Before(m, '.')) && DigitRun(After(m, '.'))
  }

  predicate SafeFloat(s: string) {
    FloatSpelling(s) &&
    (s in {".nan", ".NaN", ".NAN"} || Unsigned(s) in {".inf", ".Inf", ".INF"} || SafeNumber(s))
  }

  /** `0`, or digits that do not start with one. */
  predicate SafeDecimal(s: string) {
    s == "0" || (DigitWord(s) && s[0] != '0')
  }

  predicate SafeBased(s: string) {
    || IsBased(s, "0b", c => c == '0' || c == '1' || c == '_')
    || IsBased(s, "0x", c => IsHexDigit(c) || c == '_')
    || (|s| >= 2 && s[0] == '0' && forall i :: 1 <= i < |s| ==> IsOctal(s[i]) || s[i] == '_')
  }

  /** A number in another notation: with underscores, to the base 2, 8, 16 or 60. */
  predicate OddNumber(s: string) {
    var body := Unsigned(s);
    || SafeDecimal(body) || SafeBased(body)
    || (Sexagesimal(body) && body[0] != '0')
    || ('.' in body && Sexagesimal(Before(body, '.')) && DigitRun(After(body, '.')))
  }

  predicate OneOrTwoDigits(s: string) {
    Digits(s) && |s| <= 2
  }

  /** `[0-9]{4}-[0-9]{2}-[0-9]{2}` */
  predicate IsDate(s: string) {
    |s| == 10 && Digits(s[..4]) && s[4] == '-' && Digits(s[5..7]) && s[7] == '-' && Digits(s[8..])
  }

  function SkipWhile(s: string, p: char -> bool): (r: string)
    ensures |r| <= |s|
  {
    if s == "" || !p(s[0]) then s else SkipWhile(s[1..], p)
  }

  predicate Blank(c: char) {
    c == ' ' || c == '\t'
  }

  /** `Z`, or an offset in hours and, perhaps, minutes. */
  predicate IsZone(s: string) {
    || s == "Z"
    || (OneSign(s) &&
        if ':' in s then OneOrTwoDigits(Before(s[1..], ':')) && Digits(After(s, ':')) && |After(s, ':')| == 2
        else OneOrTwoDigits(s[1..]))
  }

  /** `h:mm:ss`, a fraction, and a zone. */
  predicate IsTime(s: string) {
    var rest := After(s, ':');
    && ':' in s && OneOrTwoDigits(Before(s, ':'))
    && |rest| >= 5 && Digits(rest[..2]) && rest[2] == ':' && Digits(rest[3..5])
    && var tail := if |rest| > 5 && rest[5] == '.' then SkipWhile(rest[6..], IsDigit) else rest[5..];
       tail == "" || IsZone(SkipWhile(tail, Blank))
  }

  /** A date, a separator and a time. */
  predicate IsMoment(s: string) {
    var rest := After(s, '-');
    var tail := After(rest, '-');
    var clock := SkipWhile(tail, IsDigit);
    && '-' in s && Digits(Before(s, '-')) && |Before(s, '-')| == 4
    && '-' in rest && OneOrTwoDigits(Before(rest, '-'))
    && 1 <= |tail| - |clock| <= 2 && clock != ""
    && (if Blank(clock[0]) then IsTime(SkipWhile(clock, Blank))
        else (clock[0] == 'T' || clock[0] == 't') && IsTime(clock[1..]))
  }

  const YES_WORDS: set<string> := {"yes", "Yes", "YES", "true", "True", "TRUE", "on", "On", "ON"}
  const NO_WORDS: set<string> := {"no", "No", "NO", "false", "False", "FALSE", "off", "Off", "OFF"}

  function SafeResolve(s: string): (v: Scalar)
    ensures Textual(v) ==> v.text == s
  {
    if s in YES_WORDS then Bool(true)
    else if s in NO_WORDS then Bool(false)
    else if SafeFloat(s) then Float(s)
    else if Decimal.IsSigned(s) && SafeDecimal(Unsigned(s)) then Int(Decimal.SignedValue(s))
    else if OddNumber(s) then Other(s)
    else if s in {"", "~", "null", "Null", "NULL"} then Null
    else if IsDate(s) || IsMoment(s) || s == "<<" || s == "=" then Other(s)
    else Str(s)
  }

  const SAFE_LOAD: Schema :=
    Dialect(SafeResolve, c => Printable(c) && c != '\U{85}' && c != '\U{2028}' && c != '\U{2029}')

  // ---------------------------------------------------------------- what is never lost

  /** A sign and digits, as `str` prints an integer. */
  lemma PrintedInt(i: int)
    ensures var t := Decimal.PrintInt(i);
      && t != "" && (IsDigit(t[0]) || t[0] == '-')
      && SafeDecimal(Unsigned(t)) && Digits(Unsigned(t))
  {
    hide Decimal.Print, IsDigit;
    var n := if i < 0 then -i else i;
    PrintedStart(n);
    var t, p := Decimal.PrintInt(i), Decimal.Print(n);
    assert Unsigned(t) == p by {
      DigitNoSign(p[0]);
      assert i < 0 ==> t[1..] == p;
    }
  }

  lemma DigitNoSign(c: char)
    requires IsDigit(c)
    ensures c != '-' && c != '+'
  {
  }

  lemma {:induction false} PrintedStart(n: nat)
    ensures var p := Decimal.Print(n); p != "" && (n != 0 ==> p[0] != '0') && (n == 0 ==> p == "0")
  {
    if n >= 10 {
      PrintedStart(n / 10);
      assert Decimal.Print(n)[0] == Decimal.Print(n / 10)[0];
    }
  }

  /** No word of either schema starts like a number. */
  lemma NumberNoWord(t: string)
    requires t != "" && (IsDigit(t[0]) || t[0] == '-')
    ensures t !in {"", "~", "null", "Null", "NULL"} && t !in {"true", "True", "TRUE"}
    ensures t !in {"false", "False", "FALSE"} && t !in {".nan", ".NaN", ".NAN"}
    ensures t !in YES_WORDS && t !in NO_WORDS && t != "<<" && t != "="
  {
  }

  lemma DigitsNoFloat(t: string)
    requires t != "" && (IsDigit(t[0]) || t[0] == '-') && Digits(Unsigned(t))
    ensures !SafeFloat(t)
  {
    NumberNoWord(t);
    var u := Unsigned(t);
    assert u !in {".inf", ".Inf", ".INF"} by {
      assert IsDigit(u[0]);
    }
    assert '.' !in Mantissa(t);
  }

  /** Both readers give back null, booleans and integers. */
  lemma ValuesKept(v: Scalar)
    requires v.Null? || v.Bool? || v.Int?
    ensures !Ambiguous(CORE, v) && !Ambiguous(SAFE_LOAD, v)
  {
    hide Decimal.PrintInt, Decimal.IsSigned, Decimal.SignedValue, Unsigned, SafeDecimal, SafeFloat, OddNumber, IsDate,
      IsMoment, CoreFloat, IsBased;
    if v.Int? {
      var t := Decimal.PrintInt(v.i);
      PrintedInt(v.i);
      NumberNoWord(t);
      DigitsNoFloat(t);
      Decimal.SignedPrint(v.i);
    } else {
      WordsKept(v);
    }
  }

  lemma WordsKept(v: Scalar)
    requires v.Null? || v.Bool?
    ensures CoreResolve(ScalarText(v)) == v && SafeResolve(ScalarText(v)) == v
  {
    hide Decimal.IsSigned, SafeDecimal, SafeFloat, OddNumber, IsDate, IsMoment, CoreFloat, IsBased;
    if v.Null? {
      NullNoNumber();
    }
  }

  lemma NullNoNumber()
    ensures !SafeFloat("null") && !Decimal.IsSigned("null") && !OddNumber("null")
  {
    LetterNoNumber("null");
  }

  predicate Letter(c: char) {
    'a' <= c <= 'z' || 'A' <= c <= 'Z'
  }

  lemma LetterNoDigits(t: string, part: string)
    requires t != "" && Letter(t[0]) && part <= t
    ensures !Digits(part) && !DigitWord(part)
  {
  }

  lemma FirstPart(t: string, c: char)
    ensures Split(t, c)[0] == Before(t, c) && Before(t, c) <= t
  {
  }

  lemma LetterNoFloat(t: string)
    requires t != "" && Letter(t[0])
    ensures !SafeFloat(t) && !CoreFloat(t) && !Decimal.IsSigned(t)
  {
    hide SafeExponent, DigitRun, FloatSpelling, Digits, DigitWord, ExponentAt;
    assert Unsigned(t) == t;
    var m := Mantissa(t);
    assert Before(m, '.') <= t;
    LetterNoDigits(t, m);
    LetterNoDigits(t, Before(m, '.'));
    if m != "" {
      assert m[0] == t[0] && m != ".";
      assert !IsDigit(Before(m, '.')[0]);
    }
  }

  lemma LetterNoBased(t: string)
    requires t != "" && Letter(t[0])
    ensures !SafeBased(t) && (forall f :: !IsBased(t, "0o", f) && !IsBased(t, "0x", f) && !IsBased(t, "0b", f))
  {
    assert |t| > 2 ==> t[..2][0] == t[0] && t[..2] != "0o" && t[..2] != "0x" && t[..2] != "0b";
  }

  lemma LetterNoSexagesimal(t: string, part: string)
    requires t != "" && Letter(t[0]) && part <= t
    ensures !Sexagesimal(part)
  {
    hide DigitWord, Sixtieth, Digits, Split;
    FirstPart(part, ':');
    LetterNoDigits(t, Before(part, ':'));
  }

  lemma LetterNoOdd(t: string)
    requires t != "" && Letter(t[0])
    ensures !OddNumber(t)
  {
    hide Digits, Sexagesimal, DigitRun, DigitWord, SafeBased;
    assert Unsigned(t) == t;
    LetterNoDigits(t, t);
    LetterNoBased(t);
    LetterNoSexagesimal(t, t);
    LetterNoSexagesimal(t, Before(t, '.'));
  }

  lemma LetterNoTime(t: string)
    requires t != "" && Letter(t[0])
    ensures !IsDate(t) && !IsMoment(t)
  {
    hide IsTime, Digits, SkipWhile, Blank;
    LetterNoDigits(t, Before(t, '-'));
    if |t| >= 4 {
      LetterNoDigits(t, t[..4]);
    }
  }

  /** A text that starts with a letter is no number and no date. */
  lemma LetterNoNumber(t: string)
    requires t != "" && Letter(t[0])
    ensures !Decimal.IsSigned(t) && !SafeFloat(t) && !OddNumber(t) && !IsDate(t) && !IsMoment(t)
    ensures !CoreFloat(t) && (forall f :: !IsBased(t, "0o", f) && !IsBased(t, "0x", f))
  {
    hide SafeFloat, OddNumber, IsDate, IsMoment, CoreFloat, IsBased, Decimal.IsSigned;
    LetterNoFloat(t);
    LetterNoBased(t);
    LetterNoOdd(t);
    LetterNoTime(t);
  }

  // ---------------------------------------------------------------- texts that start with a letter

  const CORE_WORDS: set<string> := {"Null", "NULL", "True", "TRUE", "False", "FALSE"}
  const MORE_WORDS: set<string> := {"Yes", "YES", "No", "NO", "On", "ON", "Off", "OFF"}

  predicate LetterWord(s: string) {
    s != "" && forall i :: 0 <= i < |s| ==> Letter(s[i])
  }

  lemma LetterNoSpace(c: char)
    requires Letter(c)
    ensures !IsSpace(c) && c !in INDICATORS
  {
  }

  lemma LetterWordPlain(s: string)
    requires LetterWord(s) && s !in SPECIAL_WORDS
    ensures !NeedsQuote(s)
  {
    hide IsSpace, INDICATORS, SPECIAL_WORDS;
    LetterNoSpace(s[0]);
    LetterNoSpace(s[|s| - 1]);
    assert LStrip(s) == s && RStrip(s) == s;
    assert !NumberText(s) by {
      LetterNoDecimal(s);
    }
    assert forall i :: 0 <= i < |s| ==> Letter(s[i]);
  }

  lemma LetterNoDecimal(s: string)
    requires s != "" && Letter(s[0])
    ensures !NumberText(s)
  {
  }

  lemma WordsAreLetters()
    ensures forall w :: w in CORE_WORDS || w in MORE_WORDS ==> LetterWord(w)
  {
  }

  lemma WordsNotSpecial(w: string)
    requires w in CORE_WORDS || w in MORE_WORDS
    ensures w !in SPECIAL_WORDS
  {
  }

  lemma LetterNotCore(t: string)
    requires t != "" && Letter(t[0])
    ensures !Decimal.IsSigned(t) && !CoreFloat(t) && !IsBased(t, "0o", IsOctal) && !IsBased(t, "0x", IsHexDigit)
    ensures t != "" && t != "~"
  {
    hide CoreFloat, IsBased, Decimal.IsSigned;
    LetterNoFloat(t);
    LetterNoBased(t);
  }

  lemma CoreLetterResolve(t: string)
    requires t != "" && Letter(t[0])
    ensures CoreResolve(t) == Str(t) <==> t !in CORE_WORDS && t !in {"null", "true", "false"}
  {
    hide CoreFloat, IsBased, Decimal.IsSigned, Letter;
    LetterNotCore(t);
  }

  /** Among the texts that start with a letter, readers of YAML 1.2 lose exactly three words in the
      spellings the writer does not quote. */
  lemma CoreLetterTexts(t: string)
    requires t != "" && Letter(t[0])
    ensures Ambiguous(CORE, Str(t)) <==> t in CORE_WORDS
  {
    hide NeedsQuote, CoreResolve, CORE_WORDS, MORE_WORDS, SPECIAL_WORDS, LetterWord;
    CoreLetterResolve(t);
    if t in CORE_WORDS {
      WordsAreLetters();
      WordsNotSpecial(t);
      LetterWordPlain(t);
    } else if !NeedsQuote(t) {
      NotSpecial(t);
    }
  }

  lemma NotSpecial(t: string)
    requires !NeedsQuote(t)
    ensures t !in {"null", "true", "false"} && t !in {"yes", "no", "on", "off"}
  {
  }

  lemma SafeLetterResolve(t: string)
    requires t != "" && Letter(t[0])
    ensures SafeResolve(t) == Str(t) <==>
      t !in CORE_WORDS && t !in MORE_WORDS && t !in {"null", "true", "false"} && t !in {"yes", "no", "on", "off"}
  {
    hide SafeFloat, SafeDecimal, OddNumber, IsDate, IsMoment, Decimal.IsSigned, Decimal.SignedValue, FloatSpelling;
    LetterNoNumber(t);
  }

  /** `safe_load` loses those and, of the words for yes and no, the spellings with a capital. */
  lemma SafeLetterTexts(t: string)
    requires t != "" && Letter(t[0])
    ensures Ambiguous(SAFE_LOAD, Str(t)) <==> t in CORE_WORDS || t in MORE_WORDS
  {
    hide NeedsQuote, SafeResolve, CORE_WORDS, MORE_WORDS, SPECIAL_WORDS, LetterWord;
    SafeLetterResolve(t);
    if t in CORE_WORDS || t in MORE_WORDS {
      WordsAreLetters();
      WordsNotSpecial(t);
      LetterWordPlain(t);
    } else if !NeedsQuote(t) {
      NotSpecial(t);
    }
  }

  // ---------------------------------------------------------------- texts that look like numbers

  lemma DigitsDot(whole: string, fraction: string)
    requires Digits(whole) && (fraction == "" || (fraction[0] == '.' && Digits(fraction[1..])))
    ensures var body := whole + fraction;
      && body != "" && IsDigit(body[0]) && Before(body, '.') == whole
      && (fraction == "" ==> '.' !in body) && (fraction != "" ==> After(body, '.') == fraction[1..])
  {
    var body := whole + fraction;
    assert IsDigit(whole[0]) && body[0] == whole[0];
    if fraction == "" {
      assert body == whole && '.' !in whole;
    } else {
      assert body == whole + ['.'] + fraction[1..];
      IndexOfAppend(whole, '.', fraction[1..]);
    }
  }

  lemma NumberTextOf(sign: string, whole: string, fraction: string)
    requires sign == "" || sign == "-" || sign == "+"
    requires Digits(whole) && (fraction == "" || (fraction[0] == '.' && Digits(fraction[1..])))
    ensures NumberText(sign + whole + fraction)
  {
    hide Before, After, Decimal.AllDigits;
    var s, body := sign + whole + fraction, whole + fraction;
    DigitsDot(whole, fraction);
    DigitNoSign(body[0]);
    if sign == "" {
      assert s == body;
    } else {
      assert s[0] == sign[0] && s[1..] == body;
    }
  }

  /** A text of digits, with or without a sign and a fraction, stays a text for every reader: the
      writer quotes it. */
  lemma NumberTextsKept(y: Schema, sign: string, whole: string, fraction: string)
    requires sign == "" || sign == "-" || sign == "+"
    requires Digits(whole) && (fraction == "" || (fraction[0] == '.' && Digits(fraction[1..])))
    ensures !Ambiguous(y, Str(sign + whole + fraction))
  {
    hide SPECIAL_WORDS, INDICATORS, Strip, HasPair, NumberText, Digits;
    NumberTextOf(sign, whole, fraction);
  }

  // ---------------------------------------------------------------- floats

  /** What `str` gives for a finite float: digits with a fraction, or an exponent, or both. */
  predicate FiniteFloat(s: string) {
    var m, x := Mantissa(s), Exponent(s);
    && FloatSpelling(s) && s[0] != '+'
    && Digits(Before(m, '.')) && ('.' in m ==> Digits(After(m, '.')))
    && (x != "" ==> |x| >= 3 && OneSign(x[1..]) && Digits(x[2..]))
    && (x == "" ==> '.' in m)
  }

  lemma FloatParts(s: string)
    requires FloatSpelling(s)
    ensures Unsigned(s) == Mantissa(s) + Exponent(s)
  {
  }

  lemma FiniteStart(s: string)
    requires FiniteFloat(s)
    ensures (IsDigit(s[0]) || s[0] == '-') && Unsigned(s) != "" && IsDigit(Unsigned(s)[0])
    ensures !Digits(Unsigned(s)) && !Decimal.IsSigned(s)
  {
    hide FloatSpelling, ExponentAt;
    var u, m := Unsigned(s), Mantissa(s);
    assert m[0] == Before(m, '.')[0] == u[0];
    if '.' in m {
      var i := IndexOf(m, '.');
      assert u[i] == '.';
    } else {
      var i := ExponentAt(u);
      assert u[i] == 'e' || u[i] == 'E';
    }
  }

  lemma FiniteCoreNumber(s: string)
    requires FiniteFloat(s)
    ensures CoreNumber(s)
  {
    hide FloatSpelling, ExponentAt, Mantissa, Exponent;
    var m, x := Mantissa(s), Exponent(s);
    if x != "" {
      assert Unsigned(x[1..]) == x[2..];
    }
    if '.' in m {
      assert Before(m, '.') != "" && m != ".";
    } else {
      assert Before(m, '.') == m;
    }
  }

  lemma FiniteNotBased(s: string)
    requires FiniteFloat(s)
    ensures !IsBased(s, "0o", IsOctal) && !IsBased(s, "0x", IsHexDigit)
  {
    hide FloatSpelling, ExponentAt;
    SecondLetter(s);
    if |s| > 2 {
      assert s[..2][1] == s[1];
      assert "0o"[1] == 'o' && "0x"[1] == 'x';
    }
  }

  lemma SecondLetter(s: string)
    requires FiniteFloat(s)
    ensures |s| >= 2 && (IsDigit(s[1]) || s[1] == '.' || s[1] == 'e' || s[1] == 'E')
  {
    hide FloatSpelling;
    var u, m := Unsigned(s), Mantissa(s);
    FiniteStart(s);
    if u == s {
      if |m| >= 2 {
        assert u[1] == m[1];
        var w := Before(m, '.');
        if |w| >= 2 {
          assert IsDigit(w[1]);
        }
      }
    }
  }

  /** Readers of YAML 1.2 give back every finite float. */
  lemma CoreFloatsKept(f: FloatText)
    requires FiniteFloat(f)
    ensures !Ambiguous(CORE, Float(f))
  {
    hide FiniteFloat, CoreNumber, IsBased, Decimal.IsSigned, FloatSpelling;
    FiniteStart(f);
    NumberNoWord(f);
    FiniteCoreNumber(f);
    FiniteNotBased(f);
  }

  lemma NoDotBehind(s: string)
    requires FiniteFloat(s)
    ensures '.' in s <==> '.' in Mantissa(s)
  {
    hide FloatSpelling, ExponentAt;
    var u, m, x := Unsigned(s), Mantissa(s), Exponent(s);
    assert u == m + x;
    assert '.' in s <==> '.' in u;
    assert x != "" ==> x == [x[0], x[1]] + x[2..];
  }

  lemma FiniteSafeNumber(s: string)
    requires FiniteFloat(s)
    ensures SafeFloat(s) <==> '.' in s
  {
    hide FloatSpelling, ExponentAt, Mantissa, Exponent, Unsigned;
    NoDotBehind(s);
    FiniteStart(s);
    FiniteNotEmpty(s);
    NumberNoWord(s);
    DigitNoName(Unsigned(s));
  }

  lemma FiniteNotEmpty(s: string)
    requires FiniteFloat(s)
    ensures s != ""
  {
  }

  lemma DigitNoName(u: string)
    requires u != "" && IsDigit(u[0])
    ensures u !in {".inf", ".Inf", ".INF"}
  {
  }

  /** `safe_load` gives a finite float back exactly if it was printed with a dot: from `1e+16` on, and
      below `0.0001`, round numbers come back as texts. */
  lemma SafeFloatsKept(f: FloatText)
    requires FiniteFloat(f)
    ensures Ambiguous(SAFE_LOAD, Float(f)) <==> '.' !in f
  {
    hide FiniteFloat, SafeFloat, Decimal.IsSigned, OddNumber, IsDate, IsMoment, FloatSpelling;
    FiniteStart(f);
    NumberNoWord(f);
    FiniteSafeNumber(f);
  }

  // ---------------------------------------------------------------- where the readers differ

  /** A text that is unchanged for one reader and something else for the other. */
  predicate Differ(t: string, keeps: Schema, loses: Schema) {
    !Ambiguous(keeps, Str(t)) && Ambiguous(loses, Str(t))
  }

  /** Characters of dates and clock times. */
  predicate ClockChar(c: char) {
    IsDigit(c) || c == '-' || c == ':'
  }

  predicate ClockText(t: string) {
    && |t| >= 2 && IsDigit(t[0]) && IsDigit(t[1]) && IsDigit(t[|t| - 1])
    && (forall i :: 0 <= i < |t| ==> ClockChar(t[i])) && !Decimal.AllDigits(t)
  }

  lemma DigitSolid(c: char)
    requires IsDigit(c)
    ensures !IsSpace(c) && c !in INDICATORS && c != '-' && c != '+'
  {
  }

  lemma ClockNoWord(t: string)
    requires ClockText(t)
    ensures t !in SPECIAL_WORDS && t !in {"", "~", "null", "Null", "NULL"} && t !in {"true", "True", "TRUE"}
    ensures t !in {"false", "False", "FALSE"}
  {
  }

  /** The writer does not quote them. */
  lemma ClockPlain(t: string)
    requires ClockText(t)
    ensures !NeedsQuote(t)
  {
    hide IsSpace, INDICATORS, SPECIAL_WORDS;
    DigitSolid(t[0]);
    DigitSolid(t[|t| - 1]);
    ClockNoWord(t);
    assert LStrip(t) == t && RStrip(t) == t;
    assert forall i :: 0 <= i < |t| ==> ClockChar(t[i]);
    assert !NumberText(t) by {
      assert '.' !in t && Before(t, '.') == t;
    }
  }

  lemma ClockNoCoreFloat(t: string)
    requires ClockText(t)
    ensures !CoreFloat(t) && !Decimal.IsSigned(t) && !IsBased(t, "0o", IsOctal) && !IsBased(t, "0x", IsHexDigit)
  {
    DigitSolid(t[0]);
    assert Unsigned(t) == t;
    assert forall i :: 0 <= i < |t| ==> ClockChar(t[i]);
    assert ExponentAt(t) == |t| && Mantissa(t) == t;
    assert t[..2][1] == t[1] && "0o"[1] == 'o' && "0x"[1] == 'x';
  }

  lemma ClockCoreText(t: string)
    requires ClockText(t)
    ensures CoreResolve(t) == Str(t)
  {
    hide CoreFloat, IsBased, Decimal.IsSigned, ClockText, SPECIAL_WORDS;
    ClockNoWord(t);
    ClockNoCoreFloat(t);
  }

  lemma ClockDiffers(t: string)
    requires ClockText(t) && SafeResolve(t) != Str(t)
    ensures Differ(t, CORE, SAFE_LOAD)
  {
    hide CoreResolve, SafeResolve, NeedsQuote, ClockText;
    ClockCoreText(t);
    ClockPlain(t);
  }

  /** Every text of the form `2024-01-01` comes back from `safe_load` as a date. */
  lemma DatesDiffer(t: string)
    requires IsDate(t)
    ensures Differ(t, CORE, SAFE_LOAD)
  {
    hide Differ, CORE, SAFE_LOAD, SafeFloat, SafeDecimal, OddNumber, IsMoment, YES_WORDS, NO_WORDS;
    DateText(t);
    ClockDiffers(t);
  }

  lemma DateText(t: string)
    requires IsDate(t)
    ensures ClockText(t)
  {
    var a, b, c := t[..4], t[5..7], t[8..];
    assert a[0] == t[0] && a[1] == t[1] && c[1] == t[9];
    assert forall i :: 0 <= i < 4 ==> t[i] == a[i];
    assert t[5] == b[0] && t[6] == b[1] && t[8] == c[0];
  }

  /** Every text of the form `12:30` or `12:30:00` comes back from `safe_load` as a number. */
  lemma ClockTimesDiffer(t: string)
    requires ClockText(t) && Sexagesimal(t) && t[0] != '0'
    ensures Differ(t, CORE, SAFE_LOAD)
  {
    hide Differ, CORE, SAFE_LOAD, SafeFloat, SafeDecimal, Sexagesimal, IsMoment, YES_WORDS, NO_WORDS;
    DigitSolid(t[0]);
    assert Unsigned(t) == t;
    ClockDiffers(t);
  }

  lemma OctalChars(t: string)
    requires IsBased(t, "0o", IsOctal)
    ensures t[0] == '0' && t[1] == 'o' && forall i :: 2 <= i < |t| ==> IsDigit(t[i])
  {
    assert t[..2][0] == t[0] && t[..2][1] == t[1];
  }

  lemma OctalPlain(t: string)
    requires IsBased(t, "0o", IsOctal)
    ensures !NeedsQuote(t) && '.' !in t && ':' !in t && '-' !in t
  {
    hide IsSpace, INDICATORS, SPECIAL_WORDS;
    OctalChars(t);
    DigitSolid(t[0]);
    DigitSolid(t[|t| - 1]);
    DigitNoSpecial(t);
    assert LStrip(t) == t && RStrip(t) == t;
    assert !NumberText(t) by {
      assert !IsDigit(Before(t, '.')[1]);
    }
  }

  lemma DigitNoSpecial(t: string)
    requires t != "" && IsDigit(t[0])
    ensures t !in SPECIAL_WORDS
  {
  }

  lemma OctalNoOdd(t: string)
    requires IsBased(t, "0o", IsOctal)
    ensures !OddNumber(t) && !SafeFloat(t) && !Decimal.IsSigned(t)
  {
    hide IsHexDigit;
    OctalChars(t);
    OctalPlain(t);
    DigitSolid(t[0]);
    DigitNoName(t);
    NumberNoWord(t);
    assert Unsigned(t) == t && !IsDigit(t[1]) && t[1] != '_';
    FirstPart(t, ':');
  }

  lemma OctalNoDate(t: string)
    requires IsBased(t, "0o", IsOctal)
    ensures !IsDate(t) && !IsMoment(t)
  {
    OctalPlain(t);
  }

  /** The other way round: an octal number of YAML 1.2 is a text for `safe_load`. */
  lemma OctalsDiffer(t: string)
    requires IsBased(t, "0o", IsOctal)
    ensures Differ(t, SAFE_LOAD, CORE)
  {
    hide NeedsQuote, SafeFloat, SafeDecimal, OddNumber, IsDate, IsMoment, Decimal.IsSigned, CoreFloat;
    OctalChars(t);
    NumberNoWord(t);
    OctalPlain(t);
    OctalNoOdd(t);
    OctalNoDate(t);
  }
}
