/** The Python string operations the link and YAML code is written with:
    `partition`, `split`, `join`, `strip`, `lower`/`upper`, and the laws that relate them. */
module Text {

  // ---------------------------------------------------------------- searching

  /** Position of the first `c` in `s`, or `|s|` when there is none. */
  function IndexOf(s: string, c: char): (i: nat)
    ensures i <= |s|
    ensures i < |s| ==> s[i] == c
    ensures c !in s[..i]
    ensures i == |s| <==> c !in s
  {
    if s == "" then 0
    else if s[0] == c then 0
    else
      var k := IndexOf(s[1..], c);
      assert s[..k + 1] == [s[0]] + s[1..][..k];
      k + 1
  }

  /** Position of the last `c` in `s`, or `|s|` when there is none. */
  function LastIndexOf(s: string, c: char): (i: nat)
    ensures i <= |s|
    ensures i < |s| ==> s[i] == c && c !in s[i + 1..]
    ensures i == |s| <==> c !in s
  {
    if s == "" then 0
    else
      var k := LastIndexOf(s[1..], c);
      if k < |s| - 1 then assert s[k + 2..] == s[1..][k + 1..]; k + 1
      else if s[0] == c then 0
      else |s|
  }

  /** `s.partition(c)[0]` */
  function Before(s: string, c: char): string {
    s[..IndexOf(s, c)]
  }

  /** `s.partition(c)[2]` */
  function After(s: string, c: char): string {
    var i := IndexOf(s, c);
    if i < |s| then s[i + 1..] else ""
  }

  /** `s.rsplit(c, 1)[0]` */
  function BeforeLast(s: string, c: char): string {
    s[..LastIndexOf(s, c)]
  }

  /** `s.rsplit(c, 1)[-1]` */
  function AfterLast(s: string, c: char): string {
    var i := LastIndexOf(s, c);
    if i < |s| then s[i + 1..] else s
  }

  /** `s.count(c)` */
  function Count(s: string, c: char): nat {
    if s == "" then 0 else (if s[0] == c then 1 else 0) + Count(s[1..], c)
  }

  lemma {:induction false} IndexOfAppend(a: string, c: char, b: string)
    requires c !in a
    ensures IndexOf(a + [c] + b, c) == |a|
    ensures Before(a + [c] + b, c) == a
    ensures After(a + [c] + b, c) == b
  {
    var s := a + [c] + b;
    assert s[..|a|] == a && s[|a| + 1..] == b;
    if a != "" {
      assert s[1..] == a[1..] + [c] + b;
      IndexOfAppend(a[1..], c, b);
    }
  }

  /** A text that holds `c` exactly once splits there from either end. */
  lemma {:induction false} OneSeparator(a: string, c: char, b: string)
    requires c !in a && c !in b
    ensures Count(a + [c] + b, c) == 1
    ensures LastIndexOf(a + [c] + b, c) == |a|
    ensures BeforeLast(a + [c] + b, c) == a
    ensures AfterLast(a + [c] + b, c) == b
  {
    var s := a + [c] + b;
    CountAppend(a, [c] + b, c);
    CountAppend([c], b, c);
    CountNone(a, c);
    CountNone(b, c);
    assert Count([c], c) == 1;
    assert s == a + ([c] + b);
    assert s[..|a|] == a && s[|a| + 1..] == b;
    LastIndexOfAppend(a, c, b);
  }

  lemma {:induction false} LastIndexOfAppend(a: string, c: char, b: string)
    requires c !in b
    ensures LastIndexOf(a + [c] + b, c) == |a|
  {
    var s := a + [c] + b;
    if a == "" {
      assert s[1..] == b;
    } else {
      assert s[1..] == a[1..] + [c] + b;
      LastIndexOfAppend(a[1..], c, b);
    }
  }

  lemma {:induction false} CountAppend(a: string, b: string, c: char)
    ensures Count(a + b, c) == Count(a, c) + Count(b, c)
  {
    if a == "" {
      assert a + b == b;
    } else {
      assert (a + b)[1..] == a[1..] + b;
      CountAppend(a[1..], b, c);
    }
  }

  lemma {:induction false} CountNone(s: string, c: char)
    requires c !in s
    ensures Count(s, c) == 0
  {
    if s != "" {
      CountNone(s[1..], c);
    }
  }

  /** Position of the first occurrence of `pat`, or `|s|` when there is none. */
  function Find(s: string, pat: string): (i: nat)
    requires pat != ""
    ensures i <= |s|
    ensures i < |s| ==> pat <= s[i..]
    ensures forall k :: 0 <= k < i ==> !(pat <= s[k..])
  {
    if s == "" then 0
    else if pat <= s then 0
    else
      var k := Find(s[1..], pat);
      assert forall j :: 1 <= j <= |s| ==> s[j..] == s[1..][j - 1..];
      k + 1
  }

  /** An occurrence whose first character does not appear earlier is the first one. */
  lemma {:induction false} FindAppend(a: string, pat: string, b: string)
    requires pat != "" && pat[0] !in a
    ensures Find(a + pat + b, pat) == |a|
  {
    var s := a + pat + b;
    if a == "" {
      assert s == pat + b;
    } else {
      assert s[0] != pat[0];
      assert s[1..] == a[1..] + pat + b;
      FindAppend(a[1..], pat, b);
    }
  }

  // ---------------------------------------------------------------- splitting

  /** `s.split(c)`: never empty, and no piece contains the separator. */
  function Split(s: string, c: char): (parts: seq<string>)
    ensures |parts| >= 1
    ensures forall i :: 0 <= i < |parts| ==> c !in parts[i]
    ensures Join(parts, c) == s
    decreases |s|
  {
    var i := IndexOf(s, c);
    if i == |s| then [s]
    else
      var rest := Split(s[i + 1..], c);
      assert s == s[..i] + [c] + s[i + 1..];
      assert ([s[..i]] + rest)[1..] == rest;
      [s[..i]] + rest
  }

  /** `c.join(parts)` */
  function Join(parts: seq<string>, c: char): string {
    if parts == [] then ""
    else if |parts| == 1 then parts[0]
    else parts[0] + [c] + Join(parts[1..], c)
  }

  /** Splitting undoes joining, for every list of pieces that is not empty. */
  lemma {:induction false} SplitJoin(parts: seq<string>, c: char)
    requires |parts| >= 1
    requires forall i :: 0 <= i < |parts| ==> c !in parts[i]
    ensures Split(Join(parts, c), c) == parts
  {
    if |parts| == 1 {
      assert c !in parts[0];
    } else {
      var tail := Join(parts[1..], c);
      IndexOfAppend(parts[0], c, tail);
      SplitJoin(parts[1..], c);
      assert Join(parts, c)[|parts[0]| + 1..] == tail;
      assert Join(parts, c)[..|parts[0]|] == parts[0];
    }
  }

  lemma {:induction false} JoinAppend(a: seq<string>, b: seq<string>, c: char)
    requires a != [] && b != []
    ensures Join(a + b, c) == Join(a, c) + [c] + Join(b, c)
  {
    if |a| == 1 {
      assert (a + b)[1..] == b;
    } else {
      assert (a + b)[1..] == a[1..] + b;
      JoinAppend(a[1..], b, c);
    }
  }

  /** A piece added at the end of the text is the last element of the split. */
  lemma {:induction false} SplitAppend(a: string, c: char, b: string)
    requires c !in b
    ensures Split(a + [c] + b, c) == Split(a, c) + [b]
  {
    var parts := Split(a, c);
    JoinAppend(parts, [b], c);
    SplitJoin(parts + [b], c);
  }

  // ---------------------------------------------------------------- characters

  /** The characters `str.strip()` removes. */
  predicate IsSpace(ch: char) {
    var x := ch as int;
    || 0x09 <= x <= 0x0D || 0x1C <= x <= 0x20 || x == 0x85 || x == 0xA0 || x == 0x1680
    || 0x2000 <= x <= 0x200A || x == 0x2028 || x == 0x2029 || x == 0x202F || x == 0x205F || x == 0x3000
  }

  function LStrip(s: string): string {
    if s == "" || !IsSpace(s[0]) then s else LStrip(s[1..])
  }

  function RStrip(s: string): string {
    if s == "" || !IsSpace(s[|s| - 1]) then s else RStrip(s[..|s| - 1])
  }

  /** `s.strip()` */
  function Strip(s: string): string {
    RStrip(LStrip(s))
  }

  predicate IsDigit(ch: char) {
    '0' <= ch <= '9'
  }

  /** ASCII part of `str.lower()`. */
  function LowerChar(ch: char): char {
    if 'A' <= ch <= 'Z' then ((ch as int) + 32) as char else ch
  }

  /** ASCII part of `str.upper()`. */
  function UpperChar(ch: char): char {
    if 'a' <= ch <= 'z' then ((ch as int) - 32) as char else ch
  }

  function Lower(s: string): (r: string)
    ensures |r| == |s|
    ensures forall i :: 0 <= i < |s| ==> r[i] == LowerChar(s[i])
  {
    seq(|s|, i requires 0 <= i < |s| => LowerChar(s[i]))
  }

  function Upper(s: string): (r: string)
    ensures |r| == |s|
    ensures forall i :: 0 <= i < |s| ==> r[i] == UpperChar(s[i])
  {
    seq(|s|, i requires 0 <= i < |s| => UpperChar(s[i]))
  }

  predicate Ascii(s: string) {
    forall i :: 0 <= i < |s| ==> (s[i] as int) < 128
  }

  /** No text appears twice. */
  predicate Distinct(list: seq<string>) {
    forall i, j :: 0 <= i < j < |list| ==> list[i] != list[j]
  }

  /** `a or b` on texts. */
  function Or(a: string, b: string): string {
    if a != "" then a else b
  }

  /** ASCII letters change their case and nothing else changes. */
  lemma CasesExactly(s: string, i: nat)
    requires i < |s|
    ensures Lower(s)[i] as int == (s[i] as int) + if 65 <= (s[i] as int) <= 90 then 32 else 0
    ensures Upper(s)[i] as int == (s[i] as int) - if 97 <= (s[i] as int) <= 122 then 32 else 0
  {
  }

  /** Spaces go at both ends, and only there. */
  lemma StripExactly(s: string) returns (a: string, b: string)
    ensures s == a + Strip(s) + b
    ensures (forall c :: c in a || c in b ==> IsSpace(c))
    ensures Strip(s) != "" ==> !IsSpace(Strip(s)[0]) && !IsSpace(Strip(s)[|Strip(s)| - 1])
  {
    hide IsSpace;
    a := LStripExactly(s);
    b := RStripExactly(LStrip(s));
  }

  lemma {:induction false} LStripExactly(s: string) returns (a: string)
    ensures s == a + LStrip(s) && forall c :: c in a ==> IsSpace(c)
    ensures LStrip(s) != "" ==> !IsSpace(LStrip(s)[0])
  {
    hide IsSpace;
    a := "";
    if s != "" && IsSpace(s[0]) {
      a := LStripExactly(s[1..]);
      a := [s[0]] + a;
    }
  }

  lemma {:induction false} RStripExactly(s: string) returns (b: string)
    ensures s == RStrip(s) + b && forall c :: c in b ==> IsSpace(c)
    ensures RStrip(s) != "" ==> !IsSpace(RStrip(s)[|RStrip(s)| - 1])
  {
    hide IsSpace;
    b := "";
    if s != "" && IsSpace(s[|s| - 1]) {
      b := RStripExactly(s[..|s| - 1]);
      b := b + [s[|s| - 1]];
    }
  }
}
