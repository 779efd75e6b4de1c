/** Reading back whole documents. */
module YamlDocuments {
  import opened Wrappers
  import opened Yaml
  import opened YamlReader
  import opened YamlRoundTrip
  import opened YamlBlocks

  /** The first line of an entry, taken apart. */
  lemma EntryHead(y: Schema, e: Entry, n: nat)
    requires ScalarOk(y, e.key)
    ensures var t := EntryLines(e, n)[0].text;
      && !IsDash(t)
      && ReadKey(y, t) == Some(KeyCut(SeenScalar(y, e.key), if Filled(e.value) then "" else " " + Inline(e.value)))
  {
    hide ScalarText, IsDash, ReadKey, SeenScalar, Inline, ScalarOk;
    var k := ScalarText(e.key) + ":";
    if Filled(e.value) {
      KeyLine(y, e.key, "");
      assert k + "" == k;
    } else {
      KeyLine(y, e.key, " " + Inline(e.value));
      assert k + (" " + Inline(e.value)) == k + " " + Inline(e.value);
    }
  }

  /** What a reader sees of an entry's value. */
  function SeenValue(y: Schema, d: Doc): Option<Doc> {
    if d.Atom? && ColonEnd(d.value) then None else Seen(y, d)
  }

  /** A value written on its key's line. */
  lemma ReadInlineValue(y: Schema, d: Doc)
    requires Readable(y, d) && !Filled(d)
    ensures ReadInline(y, Inline(d)) == SeenValue(y, d)
  {
    hide ScalarText, PlainText;
    if d.Atom? {
      ScalarLine(y, d.value);
    }
  }

  lemma ReadEntriesStep(y: Schema, head: Line, body: seq<Line>, rest: seq<Line>, cut: KeyCut, value: Option<Doc>,
                        entries: Option<seq<Entry>>)
    requires AllDeeper(body, head.indent) && From(rest, head.indent)
    requires ReadKey(y, head.text) == Some(cut)
    requires cut.rest == "" ==> ReadNode(y, body) == value
    requires cut.rest != "" ==> body == [] && ReadInline(y, cut.rest[1..]) == value
    requires ReadEntries(y, rest, head.indent) == entries
    ensures ReadEntries(y, [head] + body + rest, head.indent) == Push(WithKey(cut.key, value), entries)
  {
    hide ReadKey, ReadInline, ReadNode, AllDeeper, From, Push, WithKey;
    GroupCut(head, body, rest);
  }

  lemma ReadItemsStep(y: Schema, head: Line, body: seq<Line>, rest: seq<Line>, item: Option<Doc>,
                      items: Option<seq<Doc>>)
    requires AllDeeper(body, head.indent) && From(rest, head.indent)
    requires IsDash(head.text) && ReadNode(y, ItemBlock(head, body)) == item
    requires ReadItems(y, rest, head.indent) == items
    ensures ReadItems(y, [head] + body + rest, head.indent) == Push(item, items)
  {
    hide ReadNode, AllDeeper, From, ItemBlock, IsDash, Push;
    GroupCut(head, body, rest);
  }

  lemma ReadAllEntries(y: Schema, entries: seq<Entry>, n: nat)
    requires forall i :: 0 <= i < |entries| ==> ScalarOk(y, entries[i].key) && Readable(y, entries[i].value)
    ensures ReadEntries(y, AllEntryLines(entries, n), n) == SeenEntries(y, entries)
    decreases entries, 1
  {
    hide EntryLines, ReadKey, ReadInline, ReadNode, Readable, ScalarOk, AllDeeper, From, Inline, Push, WithKey, Seen,
      ColonEnd;
    if entries != [] {
      var e := entries[0];
      var lines := EntryLines(e, n);
      var rest := AllEntryLines(entries[1..], n);
      ReadAllEntries(y, entries[1..], n);
      EntryFrom(e, n);
      AllEntryFrom(entries[1..], n);
      EntryColumn(e, n);
      EntryHead(y, e, n);
      ReadEntryValue(y, e, n);
      assert lines == [lines[0]] + lines[1..];
      assert AllEntryLines(entries, n) == [lines[0]] + lines[1..] + rest;
      var cut := KeyCut(SeenScalar(y, e.key), if Filled(e.value) then "" else " " + Inline(e.value));
      ReadEntriesStep(y, lines[0], lines[1..], rest, cut, SeenValue(y, e.value), SeenEntries(y, entries[1..]));
    }
  }

  lemma EntryColumn(e: Entry, n: nat)
    ensures EntryLines(e, n)[0].indent == n
  {
    EntryFrom(e, n);
  }

  lemma ItemColumn(d: Doc, n: nat)
    ensures ItemLines(d, n)[0].indent == n
  {
    ItemFrom(d, n);
  }

  lemma ReadEntryValue(y: Schema, e: Entry, n: nat)
    requires Readable(y, e.value)
    ensures Filled(e.value) ==> ReadNode(y, EntryLines(e, n)[1..]) == SeenValue(y, e.value)
    ensures !Filled(e.value) ==> EntryLines(e, n)[1..] == []
    ensures !Filled(e.value) ==> ReadInline(y, (" " + Inline(e.value))[1..]) == SeenValue(y, e.value)
    decreases e, 0
  {
    hide ScalarText, Inline, ReadNode, ReadInline, BlockLines, Seen, Readable, ColonEnd;
    if Filled(e.value) {
      ReadBlock(y, e.value, n + 2);
      assert EntryLines(e, n)[1..] == BlockLines(e.value, n + 2);
    } else {
      ReadInlineValue(y, e.value);
      assert (" " + Inline(e.value))[1..] == Inline(e.value);
    }
  }

  /** What the lines of an item stand for once the dash is taken off. */
  function ItemDoc(d: Doc): Doc {
    if d == Dict([]) then Atom(Str("{}")) else d
  }

  lemma ItemBlockLines(d: Doc, n: nat)
    ensures IsDash(ItemLines(d, n)[0].text)
    ensures ItemBlock(ItemLines(d, n)[0], ItemLines(d, n)[1..]) == BlockLines(ItemDoc(d), n + 2)
  {
    hide ScalarText, AllEntryLines, AllItemLines;
    ItemColumn(d, n);
    var b := BlockLines(ItemDoc(d), n + 2);
    if !d.List? {
      BlockFrom(ItemDoc(d), n + 2);
      assert b == [b[0]] + b[1..];
      assert ("- " + b[0].text)[2..] == b[0].text;
    }
  }

  lemma ReadAllItems(y: Schema, items: seq<Doc>, n: nat)
    requires forall i :: 0 <= i < |items| ==> Readable(y, items[i])
    ensures ReadItems(y, AllItemLines(items, n), n) == SeenItems(y, items)
    decreases items, 1
  {
    hide ItemLines, ReadNode, Readable, AllDeeper, From, ItemBlock, SeenItem, IsDash, Push;
    if items != [] {
      var d := items[0];
      var lines := ItemLines(d, n);
      var rest := AllItemLines(items[1..], n);
      ReadAllItems(y, items[1..], n);
      ItemFrom(d, n);
      AllItemFrom(items[1..], n);
      ItemColumn(d, n);
      ItemBlockLines(d, n);
      ReadItem(y, d, n);
      assert lines == [lines[0]] + lines[1..];
      assert AllItemLines(items, n) == [lines[0]] + lines[1..] + rest;
      ReadItemsStep(y, lines[0], lines[1..], rest, SeenItem(y, d), SeenItems(y, items[1..]));
    }
  }

  lemma ReadItem(y: Schema, d: Doc, n: nat)
    requires Readable(y, d)
    ensures ReadNode(y, BlockLines(ItemDoc(d), n + 2)) == SeenItem(y, d)
    decreases d, 2
  {
    hide ReadKey, ReadInline, ScalarText, Seen, IsDash, SeenAlone;
    if d == Dict([]) {
      BraceText(y);
      ReadScalarLine(y, Str("{}"), n + 2);
    } else if d == List([]) {
      assert BlockLines(d, n + 2) == [];
    } else {
      ReadBlock(y, d, n + 2);
    }
  }

  lemma BraceText(y: Schema)
    ensures NeedsQuote("{}")
    ensures SeenAlone(y, Str("{}")) == Some(Atom(Str("{}")))
  {
    assert "{}"[0] in INDICATORS;
  }

  /** A key with nothing behind it and nothing under it. */
  lemma ReadBareKey(y: Schema, line: Line, key: Scalar)
    requires ReadKey(y, line.text) == Some(KeyCut(key, "")) && !IsDash(line.text)
    ensures ReadNode(y, [line]) == Some(Dict([Entry(key, Atom(Null))]))
  {
    hide ReadKey, IsDash, AllDeeper, From;
    NothingUnder(y, line.indent);
    ReadNothing(y);
    ReadEntriesStep(y, line, [], [], KeyCut(key, ""), Some(Atom(Null)), Some([]));
    assert [line] + [] + [] == [line];
    assert [Entry(key, Atom(Null))] + [] == [Entry(key, Atom(Null))];
  }

  lemma NothingUnder(y: Schema, n: nat)
    ensures AllDeeper([], n) && From([], n) && ReadEntries(y, [], n) == Some([])
  {
  }

  lemma ReadScalarLine(y: Schema, v: Scalar, n: nat)
    requires ScalarOk(y, v)
    ensures ReadNode(y, [Line(n, ScalarText(v))]) == SeenAlone(y, v)
  {
    hide ReadKey, ReadInline, ScalarText, IsDash, NeedsQuote, PlainText;
    ScalarLine(y, v);
    var t := ScalarText(v);
    var line := Line(n, t);
    if ColonEnd(v) {
      PlainTextOf(v);
      if PlainText(t[..|t| - 1]) {
        ReadBareKey(y, line, y.resolve(t[..|t| - 1]));
      }
    }
  }

  lemma PlainTextOf(v: Scalar)
    requires ColonEnd(v)
    ensures ScalarText(v) == v.text
  {
    hide NeedsQuote;
  }

  /** A block is read back as what `Seen` says. */
  lemma ReadBlock(y: Schema, d: Doc, n: nat)
    requires Readable(y, d) && (d.Atom? || Filled(d))
    ensures ReadNode(y, BlockLines(d, n)) == Seen(y, d)
    decreases d, 0
  {
    hide ReadKey, ReadInline, ScalarText, IsDash, EntryLines, ItemLines, SeenAlone;
    BlockFrom(d, n);
    match d
    case Dict(entries) =>
      EntryHead(y, entries[0], n);
      assert BlockLines(d, n)[0] == EntryLines(entries[0], n)[0];
      ReadAllEntries(y, entries, n);
    case List(items) =>
      ItemBlockLines(items[0], n);
      assert BlockLines(d, n)[0] == ItemLines(items[0], n)[0];
      ReadAllItems(y, items, n);
    case Atom(v) =>
      ReadScalarLine(y, v, n);
  }

  /** What a reader makes of any readable document. */
  lemma ReadDump(y: Schema, d: Doc)
    requires Readable(y, d)
    ensures Read(y, Dump(d, 0)) == if d.Atom? || Filled(d) then Seen(y, d) else Some(Atom(Null))
  {
    hide ToLines, Dump, ReadNode, Seen;
    DumpLines(y, d, 0);
    if d.Atom? || Filled(d) {
      ReadBlock(y, d, 0);
    } else {
      assert BlockLines(d, 0) == [];
      ReadNothing(y);
    }
  }

  lemma ReadNothing(y: Schema)
    ensures ReadNode(y, []) == Some(Atom(Null))
  {
  }

  // ---------------------------------------------------------------- when nothing is lost

  /** A scalar the reader resolves to something else: an unquoted text that stands for a value, a
      value that is quoted, or one whose spelling stands for another. */
  predicate Ambiguous(y: Schema, v: Scalar) {
    match v
    case Str(text) => !NeedsQuote(text) && y.resolve(text) != v
    case Other(text) => NeedsQuote(text) || y.resolve(text) != v
    case _ => y.resolve(ScalarText(v)) != v
  }

  predicate Hollow(d: Doc) {
    !d.Atom? && !Filled(d)
  }

  /** No ambiguous text, no unquoted value that ends in ':', no empty container inside a list. */
  predicate Faithful(y: Schema, d: Doc) {
    match d
    case Atom(v) => !Ambiguous(y, v) && !ColonEnd(v)
    case List(items) => forall i :: 0 <= i < |items| ==> !Hollow(items[i]) && Faithful(y, items[i])
    case Dict(entries) =>
      forall i :: 0 <= i < |entries| ==> !Ambiguous(y, entries[i].key) && Faithful(y, entries[i].value)
  }

  predicate FaithfulItem(y: Schema, d: Doc) {
    !Hollow(d) && Faithful(y, d)
  }

  predicate FaithfulEntry(y: Schema, e: Entry) {
    !Ambiguous(y, e.key) && Faithful(y, e.value)
  }

  lemma SeenSameAtom(y: Schema, v: Scalar)
    ensures SeenAlone(y, v) == Some(Atom(v)) <==> !Ambiguous(y, v) && !ColonEnd(v)
  {
    hide NeedsQuote, PlainText;
  }

  lemma SeenSameItems(y: Schema, items: seq<Doc>)
    ensures SeenItems(y, items) == Some(items) <==> forall i :: 0 <= i < |items| ==> FaithfulItem(y, items[i])
    decreases items, 1
  {
    hide FaithfulItem, SeenItem;
    if items != [] {
      SeenSameItem(y, items[0]);
      SeenSameItems(y, items[1..]);
      PushSame(SeenItem(y, items[0]), SeenItems(y, items[1..]), items);
      assert forall i :: 1 <= i < |items| ==> items[i] == items[1..][i - 1];
    }
  }

  lemma PushSame<T>(head: Option<T>, tail: Option<seq<T>>, list: seq<T>)
    requires list != []
    ensures Push(head, tail) == Some(list) <==> head == Some(list[0]) && tail == Some(list[1..])
  {
    assert list == [list[0]] + list[1..];
    if Push(head, tail) == Some(list) {
      assert list[1..] == ([head.value] + tail.value)[1..];
    }
  }

  lemma SeenSameItem(y: Schema, d: Doc)
    ensures SeenItem(y, d) == Some(d) <==> FaithfulItem(y, d)
    decreases d, 2
  {
    hide Faithful, Seen;
    SeenSame(y, d);
  }

  lemma SeenSameEntries(y: Schema, entries: seq<Entry>)
    ensures SeenEntries(y, entries) == Some(entries) <==>
      forall i :: 0 <= i < |entries| ==> FaithfulEntry(y, entries[i])
    decreases entries, 1
  {
    hide FaithfulEntry, SeenEntry;
    if entries != [] {
      SeenSameEntry(y, entries[0]);
      SeenSameEntries(y, entries[1..]);
      PushSame(SeenEntry(y, entries[0]), SeenEntries(y, entries[1..]), entries);
      assert forall i :: 1 <= i < |entries| ==> entries[i] == entries[1..][i - 1];
    }
  }

  lemma SeenSameKey(y: Schema, v: Scalar)
    ensures SeenScalar(y, v) == v <==> !Ambiguous(y, v)
  {
    hide NeedsQuote;
  }

  lemma SeenSameEntry(y: Schema, e: Entry)
    ensures SeenEntry(y, e) == Some(e) <==> FaithfulEntry(y, e)
    decreases e, 0
  {
    hide Seen, ColonEnd;
    SeenSame(y, e.value);
    SeenSameKey(y, e.key);
  }

  lemma SeenSame(y: Schema, d: Doc)
    ensures Seen(y, d) == Some(d) <==> Faithful(y, d)
    decreases d, 0
  {
    hide ColonEnd, Ambiguous, SeenAlone;
    match d
    case Atom(v) => SeenSameAtom(y, v);
    case List(items) => SeenSameItems(y, items);
    case Dict(entries) => SeenSameEntries(y, entries);
  }

  lemma ReadKeyOk(y: Schema, s: string)
    ensures ReadKey(y, s).Some? ==> ScalarOk(y, ReadKey(y, s).value.key)
  {
    hide ReadQuoted, PlainText, AtColon;
  }

  lemma ReadInlineOk(y: Schema, s: string)
    ensures ReadInline(y, s).Some? ==> Readable(y, ReadInline(y, s).value)
  {
    hide ReadQuoted, PlainText;
  }

  lemma PushAll<T>(head: Option<T>, tail: Option<seq<T>>, p: T -> bool)
    requires head.Some? ==> p(head.value)
    requires tail.Some? ==> forall i :: 0 <= i < |tail.value| ==> p(tail.value[i])
    ensures Push(head, tail).Some? ==> forall i :: 0 <= i < |Push(head, tail).value| ==> p(Push(head, tail).value[i])
  {
  }

  /** A reader only ever returns texts it accepts. */
  lemma ReadNodeOk(y: Schema, lines: seq<Line>)
    ensures ReadNode(y, lines).Some? ==> Readable(y, ReadNode(y, lines).value)
    decreases Weight(lines), 1
  {
    hide ReadKey, ReadInline, IsDash, ReadItems, ReadEntries;
    if lines != [] {
      ReadItemsOk(y, lines, lines[0].indent);
      ReadEntriesOk(y, lines, lines[0].indent);
      ReadInlineOk(y, lines[0].text);
    }
  }

  lemma ReadItemsOk(y: Schema, lines: seq<Line>, n: nat)
    ensures var r := ReadItems(y, lines, n);
      r.Some? ==> forall i :: 0 <= i < |r.value| ==> Readable(y, r.value[i])
    decreases Weight(lines), 0
  {
    hide ReadNode, IsDash, ItemBlock, Readable, Push;
    if lines != [] && lines[0].indent == n && IsDash(lines[0].text) {
      var k := Deeper(lines[1..], n);
      GroupWeight(lines, k);
      ItemBlockWeight(lines[0], lines[1..k + 1]);
      var block := ItemBlock(lines[0], lines[1..k + 1]);
      ReadNodeOk(y, block);
      ReadItemsOk(y, lines[k + 1..], n);
      PushAll(ReadNode(y, block), ReadItems(y, lines[k + 1..], n), d => Readable(y, d));
    }
  }

  lemma ReadEntriesOk(y: Schema, lines: seq<Line>, n: nat)
    ensures var r := ReadEntries(y, lines, n);
      r.Some? ==> forall i :: 0 <= i < |r.value| ==> ScalarOk(y, r.value[i].key) && Readable(y, r.value[i].value)
    decreases Weight(lines), 0
  {
    hide ReadNode, ReadInline, ReadKey, Readable, ScalarOk, Push;
    if lines != [] && lines[0].indent == n && ReadKey(y, lines[0].text).Some? {
      var cut := ReadKey(y, lines[0].text).value;
      var k := Deeper(lines[1..], n);
      GroupWeight(lines, k);
      var body := lines[1..k + 1];
      ReadKeyOk(y, lines[0].text);
      ReadNodeOk(y, body);
      if cut.rest != "" {
        ReadInlineOk(y, cut.rest[1..]);
      }
      ReadEntriesOk(y, lines[k + 1..], n);
      var value := if cut.rest == "" then ReadNode(y, body)
                   else if body == [] then ReadInline(y, cut.rest[1..])
                   else None;
      PushAll(WithKey(cut.key, value), ReadEntries(y, lines[k + 1..], n),
              (e: Entry) => ScalarOk(y, e.key) && Readable(y, e.value));
    }
  }

  /** The round trip, for every document and every schema: it is read back unchanged exactly when no
      text holds a character the reader refuses, such as a line break, no scalar is ambiguous, no
      unquoted value ends in ':', and no empty container stands where the block form cannot show one. */
  lemma DumpRoundTrip(y: Schema, d: Doc)
    ensures Read(y, Dump(d, 0)) == Some(d) <==> Readable(y, d) && Faithful(y, d) && !Hollow(d)
  {
    hide ToLines, ReadNode, Dump, Readable, Seen, Faithful;
    if Readable(y, d) {
      ReadDump(y, d);
      SeenSame(y, d);
    } else {
      ReadNodeOk(y, ToLines(Dump(d, 0)));
    }
  }
}
