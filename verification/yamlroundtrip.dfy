/** What a YAML reader makes of the writer's output: every document, except where the writer's
    own quoting rules lose something, and exactly what is lost there. */
module YamlRoundTrip {
  import opened Wrappers
  import opened Text
  import opened Yaml
  import opened YamlReader
  import Decimal

  // ---------------------------------------------------------------- what is claimed for which documents

  /** Written as a text: quoted if need be. */
  predicate Textual(v: Scalar) {
    v.Str? || v.Other?
  }

  predicate Unquoted(v: Scalar) {
    Textual(v) ==> !NeedsQuote(v.text)
  }

  predicate ScalarOk(y: Schema, v: Scalar) {
    Textual(v) ==> Legal(y, v.text)
  }

  /** No text holds a character the reader does not accept; so none runs over a line. */
  predicate Readable(y: Schema, d: Doc) {
    match d
    case Atom(v) => ScalarOk(y, v)
    case List(items) => forall i :: 0 <= i < |items| ==> Readable(y, items[i])
    case Dict(entries) =>
      forall i :: 0 <= i < |entries| ==> ScalarOk(y, entries[i].key) && Readable(y, entries[i].value)
  }

  /** The scalar a reader sees. */
  function SeenScalar(y: Schema, v: Scalar): Scalar {
    if Unquoted(v) then y.resolve(ScalarText(v)) else Str(v.text)
  }

  /** An unquoted text with a ':' at its end. */
  predicate ColonEnd(v: Scalar) {
    Textual(v) && !NeedsQuote(v.text) && v.text[|v.text| - 1] == ':'
  }

  /** A scalar on a line of its own: one that ends in ':' is read as a key without a value. */
  function SeenAlone(y: Schema, v: Scalar): Option<Doc> {
    if ColonEnd(v) then
      var k := v.text[..|v.text| - 1];
      if PlainText(k) then Some(Dict([Entry(y.resolve(k), Atom(Null))])) else None
    else Some(Atom(SeenScalar(y, v)))
  }

  /** A list item: an empty dictionary has become the text "{}", an empty list null. */
  function SeenItem(y: Schema, d: Doc): Option<Doc>
    decreases d, 1
  {
    if d == Dict([]) then Some(Atom(Str("{}")))
    else if d == List([]) then Some(Atom(Null))
    else Seen(y, d)
  }

  /** The value of an entry: on its key's line, a text that ends in ':' is an error. */
  function SeenEntry(y: Schema, e: Entry): Option<Entry>
    decreases e, 0
  {
    WithKey(SeenScalar(y, e.key), if e.value.Atom? && ColonEnd(e.value.value) then None else Seen(y, e.value))
  }

  function SeenItems(y: Schema, items: seq<Doc>): Option<seq<Doc>>
    decreases items, 0
  {
    if items == [] then Some([]) else Push(SeenItem(y, items[0]), SeenItems(y, items[1..]))
  }

  function SeenEntries(y: Schema, entries: seq<Entry>): Option<seq<Entry>>
    decreases entries, 0
  {
    if entries == [] then Some([]) else Push(SeenEntry(y, entries[0]), SeenEntries(y, entries[1..]))
  }

  function AsList(items: Option<seq<Doc>>): Option<Doc> {
    if items.Some? then Some(List(items.value)) else None
  }

  function AsDict(entries: Option<seq<Entry>>): Option<Doc> {
    if entries.Some? then Some(Dict(entries.value)) else None
  }

  /** The document a reader sees, if it sees one. */
  function Seen(y: Schema, d: Doc): Option<Doc>
    decreases d, 0
  {
    match d
    case Atom(v) => SeenAlone(y, v)
    case List(items) => AsList(SeenItems(y, items))
    case Dict(entries) => AsDict(SeenEntries(y, entries))
  }

  // ---------------------------------------------------------------- scalars

  lemma {:induction false} EscapeOneLine(s: string)
    requires '\n' !in s
    ensures '\n' !in Escape(s)
  {
    if s != "" {
      EscapeOneLine(s[1..]);
    }
  }

  lemma ReadEscapedChar(c: char, tail: string)
    ensures ReadQuoted(EscapeChar(c) + tail) == Cons(c, ReadQuoted(tail))
  {
    assert (['\\', c] + tail)[2..] == tail;
    assert ([c] + tail)[1..] == tail;
  }

  lemma ReadClosing(rest: string)
    ensures ReadQuoted("\"" + rest) == Some(Cut("", rest))
  {
    assert ("\"" + rest)[1..] == rest;
  }

  /** A quoted text is read back, whatever follows it. */
  lemma {:induction false} ReadEscaped(s: string, rest: string)
    ensures ReadQuoted(Escape(s) + "\"" + rest) == Some(Cut(s, rest))
  {
    hide ReadQuoted, EscapeChar;
    if s == "" {
      ReadClosing(rest);
      assert Escape(s) + "\"" + rest == "\"" + rest;
    } else {
      var tail := Escape(s[1..]) + "\"" + rest;
      ReadEscaped(s[1..], rest);
      ReadEscapedChar(s[0], tail);
      assert Escape(s) + "\"" + rest == EscapeChar(s[0]) + tail;
      assert s == [s[0]] + s[1..];
    }
  }

  /** A text of letters, digits and a few signs is a plain scalar for every reader. */
  lemma FloatSpelled(y: Schema, t: string)
    requires FloatSpelling(t)
    ensures PlainText(t) && Legal(y, t) && t[|t| - 1] != ':'
  {
    FloatCharNoIndicator(t[0]);
    assert FloatChar(t[|t| - 1]);
    assert |t| > 1 ==> FloatChar(t[1]);
  }

  lemma FloatCharNoIndicator(c: char)
    requires FloatChar(c)
    ensures c in MARKS ==> c == '-'
  {
    if c in MARKS {
      var i :| 0 <= i < |MARKS| && MARKS[i] == c;
      IndicatorSigns(i);
    }
  }

  lemma IndicatorSigns(i: nat)
    requires i < |MARKS|
    ensures FloatChar(MARKS[i]) ==> i == 0
  {
  }

  lemma PrintedChars(i: int)
    ensures FloatSpelling(Decimal.PrintInt(i))
  {
    hide Decimal.Print;
    var p := Decimal.Print(if i < 0 then -i else i);
    assert IsDigit(p[0]);
    assert forall k :: 0 <= k < |p| ==> IsDigit(p[k]);
  }

  lemma WordChars()
    ensures FloatSpelling("null") && FloatSpelling("true") && FloatSpelling("false")
  {
  }

  /** Everything but a text is written without quotes. */
  lemma NumberSpelled(v: Scalar)
    requires !Textual(v)
    ensures FloatSpelling(ScalarText(v))
  {
    hide Decimal.PrintInt, FloatSpelling;
    WordChars();
    if v.Int? {
      PrintedChars(v.i);
    }
  }

  lemma StripEnds(s: string)
    requires s != "" && Strip(s) == s
    ensures !IsSpace(s[0]) && !IsSpace(s[|s| - 1])
  {
    StripFront(s);
  }

  lemma {:induction false} LStripLength(s: string)
    ensures |LStrip(s)| <= |s|
  {
    if s != "" && IsSpace(s[0]) {
      LStripLength(s[1..]);
    }
  }

  lemma {:induction false} RStripLength(s: string)
    ensures |RStrip(s)| <= |s|
  {
    if s != "" && IsSpace(s[|s| - 1]) {
      RStripLength(s[..|s| - 1]);
    }
  }

  lemma StripFront(s: string)
    requires s != "" && Strip(s) == s
    ensures !IsSpace(s[0]) && !IsSpace(s[|s| - 1])
  {
    RStripLength(LStrip(s));
    if IsSpace(s[0]) {
      LStripLength(s[1..]);
    } else if IsSpace(s[|s| - 1]) {
      RStripLength(s[..|s| - 1]);
    }
  }

  lemma StrPlain(text: string)
    requires !NeedsQuote(text)
    ensures PlainText(text)
  {
    hide IsSpace, HasPair, NumberText, Strip, INDICATORS, MARKS;
    StripEnds(text);
    SpaceIsSpace();
    if text[0] in MARKS {
      AllMarks(text[0]);
    }
  }

  /** The writer knows all of them. */
  lemma AllMarks(c: char)
    requires c in MARKS
    ensures c in INDICATORS
  {
  }

  lemma SpaceIsSpace()
    ensures IsSpace(' ')
  {
  }

  /** Every scalar is written either quoted, or as a plain scalar of legal characters. */
  lemma ScalarShape(y: Schema, v: Scalar)
    requires ScalarOk(y, v)
    ensures Unquoted(v) ==> PlainText(ScalarText(v)) && Legal(y, ScalarText(v))
    ensures !Unquoted(v) ==> ScalarText(v) == Quoted(v.text)
    ensures OneLineText(ScalarText(v))
  {
    hide PlainText, NeedsQuote, FloatSpelling;
    if Textual(v) {
      if NeedsQuote(v.text) {
        assert '\n' !in v.text;
        EscapeOneLine(v.text);
      } else {
        StrPlain(v.text);
      }
    } else {
      NumberSpelled(v);
      FloatSpelled(y, ScalarText(v));
    }
  }

  predicate OneLineText(s: string) {
    '\n' !in s
  }

  /** A scalar alone on its line: not blank, no item, and no key unless it ends in ':'. */
  lemma ScalarLine(y: Schema, v: Scalar)
    requires ScalarOk(y, v)
    ensures var t := ScalarText(v);
      && t != "" && t[0] != ' ' && !IsDash(t)
      && ReadKey(y, t) == (if ColonEnd(v) && PlainText(t[..|t| - 1])
                        then Some(KeyCut(y.resolve(t[..|t| - 1]), "")) else None)
      && ReadInline(y, t) == if ColonEnd(v) then None else Some(Atom(SeenScalar(y, v)))
  {
    hide NeedsQuote, FloatSpelling, ScalarText, HasPair, PlainText, IsDash, Legal, ReadInline, ReadKey;
    ScalarShape(y, v);
    var t := ScalarText(v);
    if !Unquoted(v) {
      QuotedLine(y, v.text);
    } else {
      PlainEnd(y, v);
      PlainFirst(t);
      if t[|t| - 1] == ':' {
        ColonLine(y, t);
      } else {
        PlainLine(y, t);
      }
    }
  }

  lemma ColonLine(y: Schema, t: string)
    requires PlainText(t) && Legal(y, t) && t[|t| - 1] == ':'
    ensures ReadKey(y, t) == (if PlainText(t[..|t| - 1]) then Some(KeyCut(y.resolve(t[..|t| - 1]), "")) else None)
    ensures ReadInline(y, t) == None
  {
    PlainFirst(t);
    LastColon(t);
    assert t[|t|..] == "";
    EndsNoBracket(t);
  }

  lemma EndsNoBracket(t: string)
    requires t != "" && t[|t| - 1] == ':'
    ensures t != "{}" && t != "[]"
  {
    assert "{}"[1] == '}' && "[]"[1] == ']';
  }

  lemma LastColon(t: string)
    requires PlainText(t) && t[|t| - 1] == ':'
    ensures ColonFrom(t, 0) == |t| - 1
  {
    assert AtColon(t, |t| - 1);
    var k := ColonFrom(t, 0);
    if k < |t| - 1 {
      assert AtColon(t, k);
      assert HasPair(t, ':', ' ');
    }
  }

  lemma PlainEnd(y: Schema, v: Scalar)
    requires Unquoted(v)
    ensures var t := ScalarText(v); t != "" && (t[|t| - 1] == ':' <==> ColonEnd(v))
  {
    hide PlainText, FloatSpelling, NeedsQuote;
    if Textual(v) {
      StrPlain(v.text);
      PlainNotEmpty(v.text);
    } else {
      NumberSpelled(v);
      FloatSpelled(y, ScalarText(v));
      PlainNotEmpty(ScalarText(v));
    }
  }

  lemma PlainNotEmpty(t: string)
    requires PlainText(t)
    ensures t != ""
  {
  }

  lemma QuotedLine(y: Schema, text: string)
    requires Legal(y, text)
    ensures var t := Quoted(text);
      && t != "" && t[0] != ' ' && !IsDash(t) && ReadKey(y, t) == None
      && ReadInline(y, t) == Some(Atom(Str(text)))
  {
    hide ReadQuoted, Escape;
    var t := Quoted(text);
    ReadEscaped(text, "");
    assert t[1..] == Escape(text) + "\"" + "";
    assert t[0] == '"';
  }

  lemma PlainLine(y: Schema, t: string)
    requires PlainText(t) && Legal(y, t) && t[|t| - 1] != ':'
    ensures t[0] != ' ' && !IsDash(t) && ReadKey(y, t) == None
    ensures ReadInline(y, t) == Some(Atom(y.resolve(t)))
  {
    PlainFirst(t);
    NoColon(t);
  }

  lemma PlainFirst(t: string)
    requires PlainText(t)
    ensures t[0] != '"' && t[0] != '{' && t[0] != '[' && t[0] != ' ' && !IsDash(t)
  {
  }

  lemma NoColon(t: string)
    requires PlainText(t) && t[|t| - 1] != ':'
    ensures ColonFrom(t, 0) == |t|
  {
    var k := ColonFrom(t, 0);
    if k < |t| {
      assert AtColon(t, k);
      assert k + 1 < |t| ==> HasPair(t, ':', ' ');
    }
  }

  /** `key:` and `key: …` are taken apart at the writer's colon. */
  lemma KeyLine(y: Schema, v: Scalar, rest: string)
    requires ScalarOk(y, v) && (rest == "" || rest[0] == ' ')
    ensures var t := ScalarText(v) + ":" + rest;
      t[0] != ' ' && !IsDash(t) && ReadKey(y, t) == Some(KeyCut(SeenScalar(y, v), rest))
  {
    hide NeedsQuote, FloatSpelling, ScalarText, PlainText, HasPair, Legal, ReadKey, IsDash;
    ScalarShape(y, v);
    if !Unquoted(v) {
      QuotedKey(y, v.text, rest);
    } else {
      PlainKey(y, ScalarText(v), rest);
    }
  }

  lemma QuotedKey(y: Schema, text: string, rest: string)
    requires Legal(y, text) && (rest == "" || rest[0] == ' ')
    ensures var t := Quoted(text) + ":" + rest;
      t[0] != ' ' && !IsDash(t) && ReadKey(y, t) == Some(KeyCut(Str(text), rest))
  {
    hide ReadQuoted, Escape;
    var t := Quoted(text) + ":" + rest;
    ReadEscaped(text, ":" + rest);
    assert t[1..] == Escape(text) + "\"" + (":" + rest);
    assert t[0] == '"';
    assert (":" + rest)[1..] == rest;
  }

  lemma PlainKey(y: Schema, k: string, rest: string)
    requires PlainText(k) && Legal(y, k) && (rest == "" || rest[0] == ' ')
    ensures var t := k + ":" + rest;
      t[0] != ' ' && !IsDash(t) && ReadKey(y, t) == Some(KeyCut(y.resolve(k), rest))
  {
    var t := k + ":" + rest;
    PlainFirst(k);
    PlainNext(k);
    KeyColon(k, rest);
    assert t[..|k|] == k && t[|k| + 1..] == rest;
    assert t[0] == k[0];
    assert |k| > 1 ==> t[1] == k[1];
    assert |k| == 1 ==> t[1] == ':';
  }

  lemma PlainNext(k: string)
    requires PlainText(k)
    ensures k[0] == '-' ==> |k| > 1 && k[1] != ' '
  {
  }

  lemma KeyColon(k: string, rest: string)
    requires PlainText(k) && (rest == "" || rest[0] == ' ')
    ensures ColonFrom(k + ":" + rest, 0) == |k|
  {
    var t := k + ":" + rest;
    assert AtColon(t, |k|);
    assert t[|k|] == ':' && forall j :: 0 <= j < |k| ==> t[j] == k[j];
    var i := ColonFrom(t, 0);
    if i < |k| {
      assert AtColon(t, i);
      assert i + 1 < |k| ==> HasPair(k, ':', ' ');
    }
  }
}
