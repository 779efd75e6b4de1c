/** The block-style YAML writer (app/subfmt.py: `_scalar` and `dump_yaml`). */
module Yaml {
  import opened Text
  import Decimal

  predicate FloatChar(c: char) {
    IsDigit(c) || 'a' <= c <= 'z' || 'A' <= c <= 'Z' || c in "+-._"
  }

  /** The spelling of a float: also `inf`, `-inf` and `nan`. */
  predicate FloatSpelling(s: string) {
    s != "" && s != "-" && forall i :: 0 <= i < |s| ==> FloatChar(s[i])
  }

  type FloatText = s: string | FloatSpelling(s) witness "0"

  /** A scalar value; a float is carried as the text `str(value)` gives, and so is a value of any other
      type than these, such as a date. */
  datatype Scalar =
    | Null | Bool(b: bool) | Int(i: int) | Float(repr: FloatText) | Str(text: string) | Other(text: string)

  /** A document: dictionaries keep their insertion order. */
  datatype Doc = Atom(value: Scalar) | List(items: seq<Doc>) | Dict(entries: seq<Entry>)
  datatype Entry = Entry(key: Scalar, value: Doc)

  const SPECIAL_WORDS: set<string> := {"", "~", "null", "true", "false", "yes", "no", "on", "off"}
  const INDICATORS := "-?:,[]{}#&*!|>%@`\"'"

  /** `[-+]?\d+(\.\d+)?` */
  predicate NumberText(s: string) {
    s != "" &&
    var body := if s[0] == '-' || s[0] == '+' then s[1..] else s;
    var whole := Before(body, '.');
    && whole != "" && Decimal.AllDigits(whole)
    && ('.' in body ==> After(body, '.') != "" && Decimal.AllDigits(After(body, '.')))
  }

  /** `pair in s` for a two-character text */
  predicate HasPair(s: string, a: char, b: char) {
    exists i :: 0 <= i < |s| - 1 && s[i] == a && s[i + 1] == b
  }

  predicate NeedsQuote(s: string) {
    || s in SPECIAL_WORDS || s != Strip(s)
    || s[0] in INDICATORS
    || HasPair(s, ':', ' ') || HasPair(s, ' ', '#')
    || NumberText(s)
    || '\n' in s || '\t' in s
  }

  function EscapeChar(c: char): string {
    if c == '\\' || c == '"' then ['\\', c] else [c]
  }

  /** A backslash before every backslash and double quote. */
  function Escape(s: string): string {
    if s == "" then "" else EscapeChar(s[0]) + Escape(s[1..])
  }

  function Quoted(s: string): string {
    "\"" + Escape(s) + "\""
  }

  function TextScalar(text: string): string {
    if NeedsQuote(text) then Quoted(text) else text
  }

  /** `_scalar` */
  function ScalarText(v: Scalar): string {
    match v
    case Null => "null"
    case Bool(b) => if b then "true" else "false"
    case Int(i) => Decimal.PrintInt(i)
    case Float(repr) => repr
    case Str(text) => TextScalar(text)
    case Other(text) => TextScalar(text)
  }

  function Spaces(n: nat): (s: string)
    ensures |s| == n && forall i :: 0 <= i < n ==> s[i] == ' '
  {
    seq(n, i => ' ')
  }

  /** `"  " * indent` */
  function Pad(indent: nat): string {
    Spaces(2 * indent)
  }

  predicate Filled(d: Doc) {
    (d.List? && d.items != []) || (d.Dict? && d.entries != [])
  }

  /** What stands behind `key: ` when the value opens no block. */
  function Inline(d: Doc): string
    requires !Filled(d)
  {
    match d
    case Dict(_) => "{}"
    case List(_) => "[]"
    case Atom(v) => ScalarText(v)
  }

  /** The strings one dictionary entry adds to `out`. */
  function EntryChunks(e: Entry, indent: nat): seq<string>
    decreases e, 0
  {
    var k := Pad(indent) + ScalarText(e.key) + ":";
    if Filled(e.value) then [k, Dump(e.value, indent + 1)]
    else [k + " " + Inline(e.value)]
  }

  /** The strings one list item adds to `out`; an empty dictionary goes through `_scalar`. */
  function ItemChunks(d: Doc, indent: nat): seq<string>
    decreases d, 1
  {
    match d
    case Dict(entries) =>
      if entries == [] then [Pad(indent) + "- " + ScalarText(Str("{}"))]
      else
        var body := Dump(d, indent + 1);
        var rest := After(body, '\n');
        [Pad(indent) + "- " + LStrip(Before(body, '\n'))] + if rest == "" then [] else [rest]
    case List(_) => [Pad(indent) + "-", Dump(d, indent + 1)]
    case Atom(v) => [Pad(indent) + "- " + ScalarText(v)]
  }

  /** Everything the loop over the entries appends. */
  function AllEntryChunks(entries: seq<Entry>, indent: nat): seq<string>
    decreases entries, 0
  {
    if entries == [] then []
    else AllEntryChunks(entries[..|entries| - 1], indent) + EntryChunks(entries[|entries| - 1], indent)
  }

  /** Everything the loop over the items appends. */
  function AllItemChunks(items: seq<Doc>, indent: nat): seq<string>
    decreases items, 0
  {
    if items == [] then []
    else AllItemChunks(items[..|items| - 1], indent) + ItemChunks(items[|items| - 1], indent)
  }

  /** `dump_yaml(data, indent)` */
  function Dump(d: Doc, indent: nat): string
    decreases d, 0
  {
    Join(match d
         case Dict(entries) => AllEntryChunks(entries, indent)
         case List(items) => AllItemChunks(items, indent)
         case Atom(v) => [Pad(indent) + ScalarText(v)],
         '\n')
  }

  /** `dump_yaml` as it is written: `out` grows in a loop and is joined at the end. */
  method DumpYaml(data: Doc, indent: nat) returns (text: string)
    ensures text == Dump(data, indent)
    decreases data
  {
    hide ScalarText, LStrip, Before, After, Pad, Join;
    var pad := Pad(indent);
    var out: seq<string> := [];
    if data.Dict? {
      for i := 0 to |data.entries|
        invariant out == AllEntryChunks(data.entries[..i], indent)
      {
        assert data.entries[..i + 1][..i] == data.entries[..i];
        var e := data.entries[i];
        var k := ScalarText(e.key);
        if Filled(e.value) {
          var block := DumpYaml(e.value, indent + 1);
          out := out + [pad + k + ":", block];
        } else if e.value.Dict? {
          out := out + [pad + k + ":" + " " + "{}"];
        } else if e.value.List? {
          out := out + [pad + k + ":" + " " + "[]"];
        } else {
          out := out + [pad + k + ":" + " " + ScalarText(e.value.value)];
        }
      }
      assert data.entries[..|data.entries|] == data.entries;
    } else if data.List? {
      for i := 0 to |data.items|
        invariant out == AllItemChunks(data.items[..i], indent)
      {
        assert data.items[..i + 1][..i] == data.items[..i];
        var item := data.items[i];
        if item.Dict? && item.entries != [] {
          var body := DumpYaml(item, indent + 1);
          var first, rest := Before(body, '\n'), After(body, '\n');
          out := out + [pad + "- " + LStrip(first)];
          if rest != "" {
            out := out + [rest];
          }
        } else if item.List? {
          var block := DumpYaml(item, indent + 1);
          out := out + [pad + "-"];
          out := out + [block];
        } else if item.Dict? {
          out := out + [pad + "- " + ScalarText(Str("{}"))];
        } else {
          out := out + [pad + "- " + ScalarText(item.value)];
        }
      }
      assert data.items[..|data.items|] == data.items;
    } else {
      out := [pad + ScalarText(data.value)];
    }
    text := Join(out, '\n');
  }
}
