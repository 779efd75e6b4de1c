/** A reader for block-style YAML (YAML 1.2.2, sections 7.3 and 8.2), written from the grammar and not
    from the writer. It knows block sequences and mappings, plain and double-quoted scalars on one
    line, and `{}` and `[]`; everything else is refused. What a plain scalar stands for is a parameter. */
module YamlReader {
  import opened Wrappers
  import opened Text
  import opened Yaml
  import Decimal

  // ---------------------------------------------------------------- schemas

  /** What readers differ in: the value a plain scalar stands for, and the characters they accept
      inside a scalar. */
  datatype Dialect = Dialect(resolve: string -> Scalar, legal: char -> bool)

  /** What all of them have in common: a text is never changed, printable ASCII is accepted, and a
      line ends at a line feed. */
  ghost predicate Lawful(y: Dialect) {
    && (forall s :: y.resolve(s).Str? || y.resolve(s).Other? ==> y.resolve(s).text == s)
    && (forall c :: ' ' <= c <= '~' ==> y.legal(c))
    && !y.legal('\n')
  }

  type Schema = y: Dialect | Lawful(y) witness Dialect(s => Str(s), c => ' ' <= c <= '~')

  predicate Legal(y: Schema, s: string) {
    forall i :: 0 <= i < |s| ==> y.legal(s[i])
  }

  // ---------------------------------------------------------------- scalars on a line

  datatype Cut = Cut(content: string, rest: string)

  function Cons(c: char, tail: Option<Cut>): Option<Cut> {
    if tail.Some? then Some(Cut([c] + tail.value.content, tail.value.rest)) else None
  }

  /** A double-quoted scalar behind its opening quote. */
  function ReadQuoted(s: string): Option<Cut> {
    if s == "" then None
    else if s[0] == '"' then Some(Cut("", s[1..]))
    else if s[0] == '\\' then
      if |s| >= 2 && (s[1] == '\\' || s[1] == '"') then Cons(s[1], ReadQuoted(s[2..])) else None
    else Cons(s[0], ReadQuoted(s[1..]))
  }

  /** The indicators (YAML 1.2.2, section 5.3). */
  const MARKS := "-?:,[]{}#&*!|>'\"%@`"

  /** A plain scalar: no indicator in front (except before a solid character), no ": " or " #"
      inside, no space at an end. */
  predicate PlainText(s: string) {
    && s != "" && s[0] != ' ' && s[|s| - 1] != ' '
    && (s[0] !in MARKS || (s[0] in "-?:" && |s| > 1 && s[1] != ' '))
    && !HasPair(s, ':', ' ') && !HasPair(s, ' ', '#')
  }

  /** What can stand behind `key: ` or alone on a line. */
  function ReadInline(y: Schema, s: string): Option<Doc> {
    if s == "{}" then Some(Dict([]))
    else if s == "[]" then Some(List([]))
    else if s != "" && s[0] == '"' then
      var q := ReadQuoted(s[1..]);
      if q.Some? && q.value.rest == "" && Legal(y, q.value.content) then Some(Atom(Str(q.value.content))) else None
    else if PlainText(s) && Legal(y, s) && s[|s| - 1] != ':' then Some(Atom(y.resolve(s)))
    else None
  }

  /** A ':' that ends a key. */
  predicate AtColon(s: string, i: nat) {
    i < |s| && s[i] == ':' && (i + 1 < |s| ==> s[i + 1] == ' ')
  }

  function ColonFrom(s: string, i: nat): (k: nat)
    requires i <= |s|
    ensures i <= k <= |s|
    ensures k < |s| ==> AtColon(s, k)
    ensures forall j :: i <= j < k ==> !AtColon(s, j)
    decreases |s| - i
  {
    if i == |s| || AtColon(s, i) then i else ColonFrom(s, i + 1)
  }

  datatype KeyCut = KeyCut(key: Scalar, rest: string)

  /** `key:` or `key: …` taken apart. */
  function ReadKey(y: Schema, s: string): (r: Option<KeyCut>)
    ensures r.Some? ==> |r.value.rest| < |s| && (r.value.rest == "" || r.value.rest[0] == ' ')
  {
    if s == "" then None
    else if s[0] == '"' then
      var q := ReadQuoted(s[1..]);
      QuotedRest(s[1..]);
      if q.Some? && AtColon(q.value.rest, 0) && Legal(y, q.value.content) then
        Some(KeyCut(Str(q.value.content), q.value.rest[1..]))
      else None
    else
      var i := ColonFrom(s, 0);
      if i < |s| && PlainText(s[..i]) && Legal(y, s[..i]) then Some(KeyCut(y.resolve(s[..i]), s[i + 1..])) else None
  }

  lemma {:induction false} QuotedRest(s: string)
    ensures ReadQuoted(s).Some? ==> |ReadQuoted(s).value.rest| < |s|
  {
    if s != "" && s[0] != '"' {
      if s[0] == '\\' {
        if |s| >= 2 {
          QuotedRest(s[2..]);
        }
      } else {
        QuotedRest(s[1..]);
      }
    }
  }

  // ---------------------------------------------------------------- lines

  datatype Line = Line(indent: nat, text: string)

  function IndentOf(s: string): (n: nat)
    ensures n <= |s| && forall i :: 0 <= i < n ==> s[i] == ' '
    ensures n < |s| ==> s[n] != ' '
  {
    if s == "" || s[0] != ' ' then 0 else 1 + IndentOf(s[1..])
  }

  function LineOf(s: string): seq<Line> {
    var n := IndentOf(s);
    if n == |s| then [] else [Line(n, s[n..])]
  }

  function LinesOf(parts: seq<string>): seq<Line> {
    if parts == [] then [] else LineOf(parts[0]) + LinesOf(parts[1..])
  }

  /** The lines of a text that are not blank. */
  function ToLines(text: string): seq<Line> {
    LinesOf(Split(text, '\n'))
  }

  function Weight(lines: seq<Line>): nat {
    if lines == [] then 0 else |lines[0].text| + 1 + Weight(lines[1..])
  }

  lemma {:induction false} WeightAppend(a: seq<Line>, b: seq<Line>)
    ensures Weight(a + b) == Weight(a) + Weight(b)
  {
    if a == [] {
      assert a + b == b;
    } else {
      assert (a + b)[1..] == a[1..] + b;
      WeightAppend(a[1..], b);
    }
  }

  /** How many of the first lines stand deeper than column `n`. */
  function Deeper(lines: seq<Line>, n: nat): (k: nat)
    ensures k <= |lines|
  {
    if lines == [] || lines[0].indent <= n then 0 else 1 + Deeper(lines[1..], n)
  }

  /** A head line and the deeper lines under it. */
  lemma GroupWeight(lines: seq<Line>, k: nat)
    requires k < |lines|
    ensures Weight(lines) == |lines[0].text| + 1 + Weight(lines[1..k + 1]) + Weight(lines[k + 1..])
  {
    assert lines[1..] == lines[1..k + 1] + lines[k + 1..];
    WeightAppend(lines[1..k + 1], lines[k + 1..]);
  }

  predicate IsDash(s: string) {
    s != "" && s[0] == '-' && (|s| == 1 || s[1] == ' ')
  }

  // ---------------------------------------------------------------- blocks

  /** The lines of a sequence item: what follows "- " moves two columns to the right. */
  function ItemBlock(head: Line, body: seq<Line>): seq<Line>
    requires IsDash(head.text)
  {
    if |head.text| == 1 then body else [Line(head.indent + 2, head.text[2..])] + body
  }

  lemma ItemBlockWeight(head: Line, body: seq<Line>)
    requires IsDash(head.text)
    ensures Weight(ItemBlock(head, body)) < |head.text| + 1 + Weight(body)
  {
    if |head.text| > 1 {
      assert ([Line(head.indent + 2, head.text[2..])] + body)[1..] == body;
    }
  }

  function Push<T>(head: Option<T>, tail: Option<seq<T>>): Option<seq<T>> {
    if head.Some? && tail.Some? then Some([head.value] + tail.value) else None
  }

  function WithKey(key: Scalar, value: Option<Doc>): Option<Entry> {
    if value.Some? then Some(Entry(key, value.value)) else None
  }

  /** One node: the block that starts with the first line and uses up all lines. */
  function ReadNode(y: Schema, lines: seq<Line>): Option<Doc>
    decreases Weight(lines), 1
  {
    if lines == [] then Some(Atom(Null))
    else
      var head := lines[0];
      if IsDash(head.text) then
        var items := ReadItems(y, lines, head.indent);
        if items.Some? then Some(List(items.value)) else None
      else if ReadKey(y, head.text).Some? then
        var entries := ReadEntries(y, lines, head.indent);
        if entries.Some? then Some(Dict(entries.value)) else None
      else if |lines| == 1 then ReadInline(y, head.text)
      else None
  }

  function ReadItems(y: Schema, lines: seq<Line>, n: nat): Option<seq<Doc>>
    decreases Weight(lines), 0
  {
    if lines == [] then Some([])
    else if lines[0].indent != n || !IsDash(lines[0].text) then None
    else
      var k := Deeper(lines[1..], n);
      GroupWeight(lines, k);
      ItemBlockWeight(lines[0], lines[1..k + 1]);
      var item := ReadNode(y, ItemBlock(lines[0], lines[1..k + 1]));
      var items := ReadItems(y, lines[k + 1..], n);
      Push(item, items)
  }

  function ReadEntries(y: Schema, lines: seq<Line>, n: nat): Option<seq<Entry>>
    decreases Weight(lines), 0
  {
    if lines == [] then Some([])
    else
      var cut := ReadKey(y, lines[0].text);
      if lines[0].indent != n || cut.None? then None
      else
        var k := Deeper(lines[1..], n);
        GroupWeight(lines, k);
        var body := lines[1..k + 1];
        var value := if cut.value.rest == "" then ReadNode(y, body)
                     else if body == [] then ReadInline(y, cut.value.rest[1..])
                     else None;
        var entries := ReadEntries(y, lines[k + 1..], n);
        Push(WithKey(cut.value.key, value), entries)
  }

  /** The document a text stands for. */
  function Read(y: Schema, text: string): Option<Doc> {
    ReadNode(y, ToLines(text))
  }
}
