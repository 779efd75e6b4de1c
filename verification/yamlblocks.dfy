/** The writer's blocks line by line, and the round trip of whole documents. */
module YamlBlocks {
  import opened Text
  import opened Yaml
  import opened YamlReader
  import opened YamlRoundTrip
  import Decimal

  // ---------------------------------------------------------------- the lines of a document

  function EntryLines(e: Entry, n: nat): (lines: seq<Line>)
    ensures lines != []
    decreases e, 0
  {
    var k := ScalarText(e.key) + ":";
    if Filled(e.value) then [Line(n, k)] + BlockLines(e.value, n + 2)
    else [Line(n, k + " " + Inline(e.value))]
  }

  function ItemLines(d: Doc, n: nat): (lines: seq<Line>)
    ensures lines != []
    decreases d, 1
  {
    match d
    case Dict(entries) =>
      if entries == [] then [Line(n, "- " + ScalarText(Str("{}")))]
      else
        var b := BlockLines(d, n + 2);
        [Line(n, "- " + b[0].text)] + b[1..]
    case List(_) => [Line(n, "-")] + BlockLines(d, n + 2)
    case Atom(v) => [Line(n, "- " + ScalarText(v))]
  }

  function AllEntryLines(entries: seq<Entry>, n: nat): (lines: seq<Line>)
    ensures entries != [] ==> lines != []
    decreases entries, 0
  {
    if entries == [] then [] else EntryLines(entries[0], n) + AllEntryLines(entries[1..], n)
  }

  function AllItemLines(items: seq<Doc>, n: nat): (lines: seq<Line>)
    ensures items != [] ==> lines != []
    decreases items, 0
  {
    if items == [] then [] else ItemLines(items[0], n) + AllItemLines(items[1..], n)
  }

  /** The lines of a block that stands at column `n`. */
  function BlockLines(d: Doc, n: nat): (lines: seq<Line>)
    ensures Filled(d) ==> lines != []
    decreases d, 0
  {
    match d
    case Dict(entries) => AllEntryLines(entries, n)
    case List(items) => AllItemLines(items, n)
    case Atom(v) => [Line(n, ScalarText(v))]
  }

  // ---------------------------------------------------------------- from text to lines

  lemma {:induction false} SplitConcat(a: string, c: char, b: string)
    ensures Split(a + [c] + b, c) == Split(a, c) + Split(b, c)
  {
    JoinAppend(Split(a, c), Split(b, c), c);
    SplitJoin(Split(a, c) + Split(b, c), c);
  }

  lemma {:induction false} LinesOfAppend(a: seq<string>, b: seq<string>)
    ensures LinesOf(a + b) == LinesOf(a) + LinesOf(b)
  {
    if a == [] {
      assert a + b == b;
    } else {
      assert (a + b)[1..] == a[1..] + b;
      LinesOfAppend(a[1..], b);
    }
  }

  lemma ToLinesConcat(a: string, b: string)
    ensures ToLines(a + "\n" + b) == ToLines(a) + ToLines(b)
  {
    SplitConcat(a, '\n', b);
    LinesOfAppend(Split(a, '\n'), Split(b, '\n'));
  }

  function ChunkLines(chunks: seq<string>): seq<Line> {
    if chunks == [] then [] else ToLines(chunks[0]) + ChunkLines(chunks[1..])
  }

  lemma {:induction false} ChunkLinesAppend(a: seq<string>, b: seq<string>)
    ensures ChunkLines(a + b) == ChunkLines(a) + ChunkLines(b)
  {
    hide ToLines;
    if a == [] {
      assert a + b == b;
    } else {
      assert (a + b)[1..] == a[1..] + b;
      ChunkLinesAppend(a[1..], b);
    }
  }

  lemma EmptyLines()
    ensures ToLines("") == []
  {
    assert Split("", '\n') == [""];
    assert LinesOf([""]) == LineOf("") + LinesOf([]);
  }

  /** Joining chunks by newlines and reading lines is reading each chunk's lines. */
  lemma {:induction false} JoinLines(chunks: seq<string>)
    ensures ToLines(Join(chunks, '\n')) == ChunkLines(chunks)
  {
    hide ToLines;
    if chunks == [] {
      EmptyLines();
    } else if |chunks| == 1 {
      assert ChunkLines(chunks[1..]) == [];
    } else {
      ToLinesConcat(chunks[0], Join(chunks[1..], '\n'));
      JoinLines(chunks[1..]);
    }
  }

  lemma {:induction false} IndentSpaces(n: nat, t: string)
    requires t != "" && t[0] != ' '
    ensures IndentOf(Spaces(n) + t) == n
  {
    if n == 0 {
      assert Spaces(n) + t == t;
    } else {
      assert (Spaces(n) + t)[1..] == Spaces(n - 1) + t;
      IndentSpaces(n - 1, t);
    }
  }

  /** A chunk without a newline is one line. */
  lemma OneChunk(indent: nat, t: string)
    requires t != "" && t[0] != ' ' && '\n' !in t
    ensures ToLines(Pad(indent) + t) == [Line(2 * indent, t)]
    ensures '\n' !in Pad(indent) + t
  {
    var s := Pad(indent) + t;
    IndentSpaces(2 * indent, t);
    IndexOfNone(s, '\n');
    assert Split(s, '\n') == [s];
    assert s[2 * indent..] == t;
    assert LinesOf([s]) == LineOf(s) + LinesOf([]);
  }

  lemma IndexOfNone(s: string, c: char)
    requires c !in s
    ensures IndexOf(s, c) == |s|
  {
  }

  lemma ScalarClean(y: Schema, v: Scalar)
    requires ScalarOk(y, v)
    ensures var t := ScalarText(v); t != "" && t[0] != ' ' && '\n' !in t
  {
    hide ScalarText, ReadKey, ReadInline, SeenScalar, ColonEnd, PlainText;
    ScalarLine(y, v);
    ScalarShape(y, v);
  }

  /** What stands behind `key: ` is one solid piece. */
  lemma InlineClean(y: Schema, d: Doc)
    requires Readable(y, d) && !Filled(d)
    ensures '\n' !in Inline(d) && Inline(d) != ""
  {
    hide ScalarText;
    if d.Atom? {
      ScalarClean(y, d.value);
    }
  }

  lemma EntryChunkLines(y: Schema, e: Entry, indent: nat)
    requires ScalarOk(y, e.key) && Readable(y, e.value)
    ensures ChunkLines(EntryChunks(e, indent)) == EntryLines(e, 2 * indent)
    ensures EntryChunks(e, indent)[0] == Pad(indent) + EntryLines(e, 2 * indent)[0].text
    ensures '\n' !in EntryChunks(e, indent)[0]
    ensures EntryLines(e, 2 * indent)[0].text != "" && !IsSpace(EntryLines(e, 2 * indent)[0].text[0])
    decreases e, 0
  {
    hide ToLines, ScalarText, Inline, Dump, BlockLines, IsSpace, Pad;
    var k := ScalarText(e.key) + ":";
    ScalarClean(y, e.key);
    ScalarSolid(y, e.key);
    assert k[0] == ScalarText(e.key)[0];
    if Filled(e.value) {
      OneChunk(indent, k);
      DumpLines(y, e.value, indent + 1);
      assert Pad(indent) + ScalarText(e.key) + ":" == Pad(indent) + k;
      TwoChunks(Pad(indent) + k, Dump(e.value, indent + 1));
    } else {
      var t := k + " " + Inline(e.value);
      InlineClean(y, e.value);
      assert t[0] == k[0];
      OneChunk(indent, t);
      assert Pad(indent) + ScalarText(e.key) + ":" + " " + Inline(e.value) == Pad(indent) + t;
      SingleChunk(Pad(indent) + t);
    }
  }

  lemma ScalarSolid(y: Schema, v: Scalar)
    requires ScalarOk(y, v)
    ensures ScalarText(v) != "" && !IsSpace(ScalarText(v)[0])
  {
    hide Escape, HasPair, Strip, NumberText, FloatSpelling, Decimal.PrintInt;
    ScalarClean(y, v);
    if !Textual(v) {
      NumberSpelled(v);
      FloatNoSpace(ScalarText(v));
    } else if !NeedsQuote(v.text) {
      StripEnds(v.text);
    }
  }

  lemma FloatNoSpace(t: string)
    requires FloatSpelling(t)
    ensures t != "" && !IsSpace(t[0])
  {
    assert FloatChar(t[0]);
  }

  lemma SingleChunk(a: string)
    ensures ChunkLines([a]) == ToLines(a)
  {
    hide ToLines;
    assert ChunkLines([a][1..]) == [];
  }

  lemma TwoChunks(a: string, b: string)
    ensures ChunkLines([a, b]) == ToLines(a) + ToLines(b)
  {
    hide ToLines;
    assert [a, b][1..] == [b];
    SingleChunk(b);
  }

  lemma BeforeAfter(s: string)
    ensures ToLines(s) == ToLines(Before(s, '\n')) + ToLines(After(s, '\n'))
  {
    hide ToLines;
    var i := IndexOf(s, '\n');
    if i == |s| {
      EmptyLines();
      assert s[..i] == s;
    } else {
      assert s == Before(s, '\n') + "\n" + After(s, '\n');
      ToLinesConcat(Before(s, '\n'), After(s, '\n'));
    }
  }

  lemma BeforeJoin(chunks: seq<string>)
    requires chunks != [] && '\n' !in chunks[0]
    ensures Before(Join(chunks, '\n'), '\n') == chunks[0]
  {
    if |chunks| == 1 {
      IndexOfNone(chunks[0], '\n');
    } else {
      IndexOfAppend(chunks[0], '\n', Join(chunks[1..], '\n'));
    }
  }

  lemma {:induction false} LStripSpaces(n: nat, t: string)
    requires t != "" && !IsSpace(t[0])
    ensures LStrip(Spaces(n) + t) == t
  {
    if n == 0 {
      assert Spaces(n) + t == t;
    } else {
      SpaceIsSpace();
      assert (Spaces(n) + t)[1..] == Spaces(n - 1) + t;
      LStripSpaces(n - 1, t);
    }
  }

  /** The first chunk of a dictionary is its first line. */
  lemma {:induction false} FirstChunk(entries: seq<Entry>, indent: nat)
    requires entries != []
    ensures AllEntryChunks(entries, indent) != []
    ensures AllEntryChunks(entries, indent)[0] == EntryChunks(entries[0], indent)[0]
  {
    if |entries| > 1 {
      FirstChunk(entries[..|entries| - 1], indent);
    }
  }

  lemma FirstLine(y: Schema, entries: seq<Entry>, indent: nat)
    requires entries != [] && ScalarOk(y, entries[0].key) && Readable(y, entries[0].value)
    ensures var t := BlockLines(Dict(entries), 2 * indent)[0].text;
      && Before(Dump(Dict(entries), indent), '\n') == Pad(indent) + t
      && LStrip(Before(Dump(Dict(entries), indent), '\n')) == t
      && t != "" && !IsSpace(t[0]) && '\n' !in t
    decreases entries, 0
  {
    hide EntryChunks, EntryLines, IsSpace, Before, Join, Readable, ScalarOk;
    FirstChunk(entries, indent);
    EntryChunkLines(y, entries[0], indent);
    BeforeJoin(AllEntryChunks(entries, indent));
    var t := EntryLines(entries[0], 2 * indent)[0].text;
    assert BlockLines(Dict(entries), 2 * indent)[0].text == t;
    LStripSpaces(2 * indent, t);
    forall i | 0 <= i < |t|
      ensures t[i] != '\n'
    {
      assert (Pad(indent) + t)[2 * indent + i] == t[i];
    }
  }

  lemma ItemChunkLines(y: Schema, d: Doc, indent: nat)
    requires Readable(y, d)
    ensures ChunkLines(ItemChunks(d, indent)) == ItemLines(d, 2 * indent)
    decreases d, 2
  {
    hide ToLines, ScalarText, Dump, BlockLines, IsSpace, Pad, Before, After, LStrip;
    match d
    case Dict(entries) =>
      if entries == [] {
        ItemScalar(y, Str("{}"), indent);
      } else {
        FilledItem(y, d, indent);
      }
    case List(items) =>
      OneChunk(indent, "-");
      DumpLines(y, d, indent + 1);
      TwoChunks(Pad(indent) + "-", Dump(d, indent + 1));
    case Atom(v) =>
      ItemScalar(y, v, indent);
  }

  lemma ItemScalar(y: Schema, v: Scalar, indent: nat)
    requires ScalarOk(y, v)
    ensures ChunkLines([Pad(indent) + "- " + ScalarText(v)]) == [Line(2 * indent, "- " + ScalarText(v))]
  {
    hide ScalarText, Pad, ToLines;
    ScalarClean(y, v);
    OneChunk(indent, "- " + ScalarText(v));
    SingleChunk(Pad(indent) + "- " + ScalarText(v));
    assert Pad(indent) + ("- " + ScalarText(v)) == Pad(indent) + "- " + ScalarText(v);
  }

  /** A dictionary inside a list: its first line moves behind the dash, the others follow. */
  lemma FilledItem(y: Schema, d: Doc, indent: nat)
    requires Readable(y, d) && d.Dict? && d.entries != []
    ensures ChunkLines(ItemChunks(d, indent)) == ItemLines(d, 2 * indent)
    decreases d, 1
  {
    hide ToLines, ScalarText, Dump, IsSpace, Pad, Before, After, LStrip, BlockLines;
    var b := BlockLines(d, 2 * indent + 2);
    var body := Dump(d, indent + 1);
    var rest := After(body, '\n');
    FirstLine(y, d.entries, indent + 1);
    DumpLines(y, d, indent + 1);
    BeforeAfter(body);
    OneChunkSolid(indent + 1, b[0].text);
    assert b == [Line(2 * indent + 2, b[0].text)] + ToLines(rest);
    var head := Pad(indent) + "- " + b[0].text;
    DashChunk(indent, b[0].text);
    if rest == "" {
      EmptyLines();
      SingleChunk(head);
    } else {
      TwoChunks(head, rest);
    }
  }

  lemma OneChunkSolid(indent: nat, t: string)
    requires t != "" && !IsSpace(t[0]) && '\n' !in t
    ensures ToLines(Pad(indent) + t) == [Line(2 * indent, t)]
  {
    SpaceIsSpace();
    OneChunk(indent, t);
  }

  lemma DashChunk(indent: nat, t: string)
    requires '\n' !in t
    ensures ToLines(Pad(indent) + "- " + t) == [Line(2 * indent, "- " + t)]
  {
    hide Pad, ToLines;
    OneChunk(indent, "- " + t);
    assert Pad(indent) + ("- " + t) == Pad(indent) + "- " + t;
  }

  lemma {:induction false} AllEntryLinesAppend(a: seq<Entry>, e: Entry, n: nat)
    ensures AllEntryLines(a + [e], n) == AllEntryLines(a, n) + EntryLines(e, n)
  {
    hide EntryLines;
    if a == [] {
      assert a + [e] == [e];
      assert AllEntryLines([e][1..], n) == [];
    } else {
      assert (a + [e])[1..] == a[1..] + [e];
      AllEntryLinesAppend(a[1..], e, n);
    }
  }

  lemma {:induction false} AllItemLinesAppend(a: seq<Doc>, d: Doc, n: nat)
    ensures AllItemLines(a + [d], n) == AllItemLines(a, n) + ItemLines(d, n)
  {
    hide ItemLines;
    if a == [] {
      assert a + [d] == [d];
      assert AllItemLines([d][1..], n) == [];
    } else {
      assert (a + [d])[1..] == a[1..] + [d];
      AllItemLinesAppend(a[1..], d, n);
    }
  }

  lemma AllEntryChunkLines(y: Schema, entries: seq<Entry>, indent: nat)
    requires forall i :: 0 <= i < |entries| ==> ScalarOk(y, entries[i].key) && Readable(y, entries[i].value)
    ensures ChunkLines(AllEntryChunks(entries, indent)) == AllEntryLines(entries, 2 * indent)
    decreases entries, 1
  {
    hide EntryChunks, EntryLines, ChunkLines, Readable, ScalarOk;
    if entries == [] {
      NoChunks();
    } else {
      var most, last := entries[..|entries| - 1], entries[|entries| - 1];
      AllEntryChunkLines(y, most, indent);
      EntryChunkLines(y, last, indent);
      ChunkLinesAppend(AllEntryChunks(most, indent), EntryChunks(last, indent));
      AllEntryLinesAppend(most, last, 2 * indent);
      assert entries == most + [last];
    }
  }

  lemma NoChunks()
    ensures ChunkLines([]) == []
  {
  }

  lemma AllItemChunkLines(y: Schema, items: seq<Doc>, indent: nat)
    requires forall i :: 0 <= i < |items| ==> Readable(y, items[i])
    ensures ChunkLines(AllItemChunks(items, indent)) == AllItemLines(items, 2 * indent)
    decreases items, 1
  {
    hide ItemChunks, ItemLines, ChunkLines, Readable;
    if items == [] {
      NoChunks();
    } else {
      var most, last := items[..|items| - 1], items[|items| - 1];
      AllItemChunkLines(y, most, indent);
      ItemChunkLines(y, last, indent);
      ChunkLinesAppend(AllItemChunks(most, indent), ItemChunks(last, indent));
      AllItemLinesAppend(most, last, 2 * indent);
      assert items == most + [last];
    }
  }

  /** The text of a block, split into lines, is the list of its lines. */
  lemma DumpLines(y: Schema, d: Doc, indent: nat)
    requires Readable(y, d)
    ensures ToLines(Dump(d, indent)) == BlockLines(d, 2 * indent)
    decreases d, 0
  {
    hide ToLines, ScalarText, Pad, ChunkLines, Join;
    match d
    case Dict(entries) =>
      JoinLines(AllEntryChunks(entries, indent));
      AllEntryChunkLines(y, entries, indent);
    case List(items) =>
      JoinLines(AllItemChunks(items, indent));
      AllItemChunkLines(y, items, indent);
    case Atom(v) =>
      JoinLines([Pad(indent) + ScalarText(v)]);
      ScalarClean(y, v);
      OneChunk(indent, ScalarText(v));
      SingleChunk(Pad(indent) + ScalarText(v));
  }

  // ---------------------------------------------------------------- from lines to the document

  predicate AllDeeper(lines: seq<Line>, n: nat) {
    forall i :: 0 <= i < |lines| ==> lines[i].indent > n
  }

  predicate From(lines: seq<Line>, n: nat) {
    && (lines != [] ==> lines[0].indent == n)
    && forall i :: 0 <= i < |lines| ==> lines[i].indent >= n
  }

  lemma {:induction false} DeeperRun(body: seq<Line>, rest: seq<Line>, n: nat)
    requires AllDeeper(body, n) && (rest != [] ==> rest[0].indent <= n)
    ensures Deeper(body + rest, n) == |body|
  {
    if body == [] {
      assert body + rest == rest;
    } else {
      assert (body + rest)[1..] == body[1..] + rest;
      DeeperRun(body[1..], rest, n);
    }
  }

  /** A group in front of other lines of the same block is cut off exactly. */
  lemma GroupCut(head: Line, body: seq<Line>, rest: seq<Line>)
    requires AllDeeper(body, head.indent) && From(rest, head.indent)
    ensures var lines := [head] + body + rest;
      var k := Deeper(lines[1..], head.indent);
      k < |lines| && lines[0] == head && lines[1..k + 1] == body && lines[k + 1..] == rest
  {
    var lines := [head] + body + rest;
    assert lines[1..] == body + rest;
    DeeperRun(body, rest, head.indent);
    assert lines[1..|body| + 1] == body;
    assert lines[|body| + 1..] == rest;
  }

  lemma EntryFrom(e: Entry, n: nat)
    ensures From(EntryLines(e, n), n) && AllDeeper(EntryLines(e, n)[1..], n)
    decreases e, 0
  {
    hide ScalarText, Inline, BlockLines;
    if Filled(e.value) {
      BlockFrom(e.value, n + 2);
    }
  }

  lemma ItemFrom(d: Doc, n: nat)
    ensures From(ItemLines(d, n), n) && AllDeeper(ItemLines(d, n)[1..], n)
    decreases d, 1
  {
    hide ScalarText, BlockLines;
    BlockFrom(d, n + 2);
  }

  lemma AllEntryFrom(entries: seq<Entry>, n: nat)
    ensures From(AllEntryLines(entries, n), n)
    decreases entries, 0
  {
    hide EntryLines;
    if entries != [] {
      EntryFrom(entries[0], n);
      AllEntryFrom(entries[1..], n);
    }
  }

  lemma AllItemFrom(items: seq<Doc>, n: nat)
    ensures From(AllItemLines(items, n), n)
    decreases items, 0
  {
    hide ItemLines;
    if items != [] {
      ItemFrom(items[0], n);
      AllItemFrom(items[1..], n);
    }
  }

  /** A block starts at its column, and no line of it stands further left. */
  lemma BlockFrom(d: Doc, n: nat)
    ensures From(BlockLines(d, n), n)
    decreases d, 0
  {
    hide ScalarText;
    match d
    case Dict(entries) => AllEntryFrom(entries, n);
    case List(items) => AllItemFrom(items, n);
    case Atom(v) =>
  }
}
