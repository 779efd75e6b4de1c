/** Unique names inside generated client files (app/subfmt.py: `_tag` and the reference skeleton of
    `singbox_config` and `clash_dict`). */
module Tags {
  import opened Text
  import Decimal

  const SPECIAL := "[](){}\"':,|*&%$#@!<>?/\\"
  const TAG_LIMIT := 48

  /** `re.sub("[…]", "", name)` */
  function WithoutSpecial(s: string): string {
    if s == "" then ""
    else (if s[0] in SPECIAL then "" else [s[0]]) + WithoutSpecial(s[1..])
  }

  /** `s.replace(" ", "-")` */
  function Dashed(s: string): (r: string)
    ensures |r| == |s|
  {
    seq(|s|, i requires 0 <= i < |s| => if s[i] == ' ' then '-' else s[i])
  }

  /** `s[:n]` */
  function Cut(s: string, n: nat): string {
    if |s| <= n then s else s[..n]
  }

  /** The name a tag starts from: never empty, at most 48 characters. */
  function Clean(name: string): (c: string)
    ensures 0 < |c| <= TAG_LIMIT
  {
    Cut(Dashed(Or(Strip(WithoutSpecial(name)), "TiTaN")), TAG_LIMIT)
  }

  predicate TagChar(c: char) {
    c !in "[](){}\"':,|*&%$#@!<>?/\\" && c != ' '
  }

  predicate TagText(s: string) {
    forall i :: 0 <= i < |s| ==> TagChar(s[i])
  }

  lemma {:induction false} WithoutSpecialChars(s: string)
    ensures forall c :: c in WithoutSpecial(s) <==> c in s && c !in SPECIAL
  {
    if s != "" {
      WithoutSpecialChars(s[1..]);
      assert s == [s[0]] + s[1..];
    }
  }

  lemma {:induction false} WithoutSpecialSame(s: string)
    requires forall c :: c in s ==> c !in SPECIAL
    ensures WithoutSpecial(s) == s
  {
    if s != "" {
      assert s == [s[0]] + s[1..];
      WithoutSpecialSame(s[1..]);
    }
  }

  lemma {:induction false} LStripPart(s: string)
    ensures forall c :: c in LStrip(s) ==> c in s
  {
    if s != "" && IsSpace(s[0]) {
      LStripPart(s[1..]);
      assert s == [s[0]] + s[1..];
    }
  }

  lemma {:induction false} RStripPart(s: string)
    ensures forall c :: c in RStrip(s) ==> c in s
  {
    if s != "" && IsSpace(s[|s| - 1]) {
      RStripPart(s[..|s| - 1]);
      assert s == s[..|s| - 1] + [s[|s| - 1]];
    }
  }

  lemma DefaultChars()
    ensures TagText("TiTaN") && '-' !in SPECIAL
  {
  }

  lemma DashedText(s: string)
    requires forall c :: c in s ==> c !in SPECIAL
    ensures TagText(Cut(Dashed(s), TAG_LIMIT))
  {
    hide SPECIAL;
    DefaultChars();
    forall i | 0 <= i < |s|
      ensures TagChar(Dashed(s)[i])
    {
      assert s[i] in s;
      TagCharPlain(Dashed(s)[i]);
    }
  }

  /** A clean name holds no special character and no space. */
  lemma CleanText(name: string)
    ensures TagText(Clean(name))
  {
    hide SPECIAL, LStrip, RStrip, WithoutSpecial, TagText;
    var plain := WithoutSpecial(name);
    WithoutSpecialChars(name);
    LStripPart(plain);
    RStripPart(LStrip(plain));
    DefaultChars();
    DefaultSolid();
    DashedText(Or(Strip(plain), "TiTaN"));
  }

  lemma DefaultSolid()
    ensures forall c :: c in "TiTaN" ==> c !in SPECIAL
  {
  }

  /** A name without special characters keeps its first 48 characters, each space in it turned into a
      dash. */
  lemma CleanDashes(name: string)
    requires name != "" && !IsSpace(name[0]) && !IsSpace(name[|name| - 1])
    requires forall i :: 0 <= i < |name| ==> name[i] == ' ' || TagChar(name[i])
    ensures |Clean(name)| == if |name| < 48 then |name| else 48
    ensures forall i :: 0 <= i < |Clean(name)| ==> Clean(name)[i] == if name[i] == ' ' then '-' else name[i]
  {
    hide SPECIAL, IsSpace;
    assert ' ' !in SPECIAL by {
      SpaceNotSpecial();
    }
    forall c | c in name
      ensures c !in SPECIAL
    {
      TagCharPlain(c);
    }
    WithoutSpecialSame(name);
    assert Strip(name) == name;
  }

  lemma SpaceNotSpecial()
    ensures ' ' !in SPECIAL
  {
  }

  lemma TagCharPlain(c: char)
    ensures TagChar(c) <==> c !in SPECIAL && c != ' '
  {
  }

  /** A name that is already clean stays as it is. */
  lemma CleanKeeps(name: string)
    requires 0 < |name| <= 48 && TagText(name) && !IsSpace(name[0]) && !IsSpace(name[|name| - 1])
    ensures Clean(name) == name
  {
    hide Clean, TagChar, IsSpace;
    CleanDashes(name);
    TagTextNoSpace(name);
    assert |Clean(name)| == |name|;
  }

  lemma TagTextNoSpace(s: string)
    requires TagText(s)
    ensures ' ' !in s
  {
    assert forall i :: 0 <= i < |s| ==> TagChar(s[i]);
  }

  /** Special characters are dropped and nothing else is: part by part, and character by character. */
  lemma {:induction false} WithoutSpecialParts(a: string, b: string)
    ensures WithoutSpecial(a + b) == WithoutSpecial(a) + WithoutSpecial(b)
  {
    hide SPECIAL;
    if a == "" {
      assert a + b == b;
    } else {
      assert (a + b)[0] == a[0] && (a + b)[1..] == a[1..] + b;
      WithoutSpecialParts(a[1..], b);
    }
  }

  lemma WithoutSpecialOne(c: char)
    ensures WithoutSpecial([c]) == if TagChar(c) || c == ' ' then [c] else ""
  {
    hide SPECIAL, TagChar;
    SpaceNotSpecial();
    TagCharPlain(c);
    assert [c][1..] == "";
  }

  /** Neither does a tag: the counter adds a dash and digits. */
  lemma CandidateTagText(clean: string, k: nat)
    requires TagText(clean)
    ensures TagText(Candidate(clean, k))
  {
    hide SPECIAL, Decimal.Print;
    DefaultChars();
    if k > 1 {
      var p := Decimal.Print(k);
      forall i | 0 <= i < |p|
        ensures TagChar(p[i])
      {
        assert IsDigit(p[i]);
        DigitTagChar(p[i]);
      }
    }
  }

  lemma DigitTagChar(c: char)
    requires IsDigit(c)
    ensures TagChar(c)
  {
  }

  /** The n-th name the loop tries: `clean`, `clean-2`, `clean-3`, … */
  function Candidate(clean: string, n: nat): string {
    if n <= 1 then clean else clean + "-" + Decimal.Print(n)
  }

  lemma CandidateText(clean: string, n: nat)
    ensures Candidate(clean, 1) == clean
    ensures n >= 2 ==> Candidate(clean, n) == clean + "-" + Decimal.Print(n)
  {
  }

  lemma CandidateInjective(clean: string, m: nat, n: nat)
    requires 1 <= m && 1 <= n && Candidate(clean, m) == Candidate(clean, n)
    ensures m == n
  {
    hide Decimal.Print;
    if m > 1 && n > 1 {
      assert Candidate(clean, m)[|clean| + 1..] == Decimal.Print(m);
      assert Candidate(clean, n)[|clean| + 1..] == Decimal.Print(n);
      Decimal.PrintInjective(m, n);
    }
  }

  predicate AllTaken(clean: string, used: set<string>, n: nat) {
    forall k :: 1 <= k <= n ==> Candidate(clean, k) in used
  }

  lemma NoneTaken(clean: string, used: set<string>)
    ensures AllTaken(clean, used, 0)
  {
  }

  lemma TakeOne(clean: string, used: set<string>, n: nat)
    requires n >= 1 && AllTaken(clean, used, n - 1) && Candidate(clean, n) in used
    ensures AllTaken(clean, used, n)
  {
    hide Candidate;
  }

  /** Pigeonhole: taken candidates are distinct elements of `used`. */
  lemma {:induction false} TakenBound(clean: string, used: set<string>, n: nat)
    requires AllTaken(clean, used, n)
    ensures n <= |used|
  {
    if n > 0 {
      var last := Candidate(clean, n);
      forall k | 1 <= k <= n - 1
        ensures Candidate(clean, k) in used - {last}
      {
        if Candidate(clean, k) == last {
          CandidateInjective(clean, k, n);
        }
      }
      TakenBound(clean, used - {last}, n - 1);
    }
  }

  /** Which candidate the loop stops at: the first free one, after at most |used| + 1 tries. */
  function Try(clean: string, used: set<string>, n: nat): (k: nat)
    requires n >= 1 && AllTaken(clean, used, n - 1)
    ensures n <= k <= |used| + 1
    ensures Candidate(clean, k) !in used && AllTaken(clean, used, k - 1)
    decreases |used| + 1 - n
  {
    TakenBound(clean, used, n - 1);
    if Candidate(clean, n) !in used then n
    else
      TakenBound(clean, used, n);
      Try(clean, used, n + 1)
  }

  function TagFor(name: string, used: set<string>): (tag: string)
    ensures tag !in used
  {
    Candidate(Clean(name), Try(Clean(name), used, 1))
  }

  /** The names in use while one file is written. */
  class Minter {
    var used: set<string>

    constructor ()
      ensures used == {}
    {
      used := {};
    }

    /** `_tag` */
    method Mint(name: string) returns (tag: string)
      modifies this
      ensures tag == TagFor(name, old(used)) && tag !in old(used)
      ensures used == old(used) + {tag}
    {
      hide Clean, Candidate, Decimal.Print, AllTaken;
      var clean := Clean(name);
      var n := 2;
      tag := clean;
      CandidateText(clean, 1);
      NoneTaken(clean, used);
      while tag in used
        invariant n >= 2 && tag == Candidate(clean, n - 1)
        invariant used == old(used) && AllTaken(clean, used, 0) && AllTaken(clean, used, n - 2)
        invariant Try(clean, used, n - 1) == Try(clean, used, 1)
        decreases |used| + 2 - n
      {
        TakeOne(clean, used, n - 1);
        TakenBound(clean, used, n - 1);
        CandidateText(clean, n);
        tag := clean + "-" + Decimal.Print(n);
        n := n + 1;
      }
      used := used + {tag};
    }
  }

  /** The tags of a list of names, minted one after the other. */
  function TagsFrom(names: seq<string>, used: set<string>): (tags: seq<string>)
    ensures |tags| == |names|
  {
    if names == [] then []
    else
      var tag := TagFor(names[0], used);
      [tag] + TagsFrom(names[1..], used + {tag})
  }

  function Tags(names: seq<string>): seq<string> {
    TagsFrom(names, {})
  }

  lemma {:induction false} TagsFresh(names: seq<string>, used: set<string>)
    ensures Distinct(TagsFrom(names, used))
    ensures forall i :: 0 <= i < |names| ==> TagsFrom(names, used)[i] !in used
  {
    hide TagFor;
    if names != [] {
      TagsFresh(names[1..], used + {TagFor(names[0], used)});
    }
  }

  /** The tags of one file are pairwise distinct. */
  lemma TagsDistinct(names: seq<string>)
    ensures Distinct(Tags(names))
  {
    TagsFresh(names, {});
  }

  /** Each tag is its own clean name, or that name with a counter no larger than the number of
      names before it plus one. */
  lemma {:induction false} TagShape(names: seq<string>, used: set<string>, i: nat) returns (k: nat)
    requires i < |names|
    ensures 1 <= k <= |used| + i + 1
    ensures TagsFrom(names, used)[i] == Candidate(Clean(names[i]), k)
  {
    hide Candidate, Clean;
    var tag := TagFor(names[0], used);
    if i == 0 {
      k := Try(Clean(names[0]), used, 1);
    } else {
      k := TagShape(names[1..], used + {tag}, i - 1);
    }
  }

  /** No tag of a file holds a special character or a space. */
  lemma TagsText(names: seq<string>, i: nat)
    requires i < |names|
    ensures TagText(Tags(names)[i])
  {
    hide Clean, Candidate, TagText;
    var k := TagShape(names, {}, i);
    CleanText(names[i]);
    CandidateTagText(Clean(names[i]), k);
  }

  // ---------------------------------------------------------------- collisions with fixed names

  /** A name no counter can end in. */
  predicate Wordy(r: string) {
    r != "" && !IsDigit(r[|r| - 1])
  }

  lemma CounterEndsInDigit(clean: string, k: nat)
    requires k > 1
    ensures var c := Candidate(clean, k); c != "" && IsDigit(c[|c| - 1])
  {
    hide Decimal.Print;
    var p := Decimal.Print(k);
    assert Candidate(clean, k)[|clean| + |p|] == p[|p| - 1];
    assert IsDigit(p[|p| - 1]);
  }

  lemma WordyCandidate(clean: string, k: nat, r: string)
    requires Wordy(r) && Candidate(clean, k) == r
    ensures clean == r
  {
    hide Decimal.Print, IsDigit;
    if k > 1 {
      CounterEndsInDigit(clean, k);
    }
  }

  lemma {:induction false} FirstTagTaken(names: seq<string>, used: set<string>, i: nat)
    requires i < |names|
    ensures Clean(names[i]) in TagsFrom(names, used) || Clean(names[i]) in used
  {
    hide Clean;
    var tag := TagFor(names[0], used);
    var rest := TagsFrom(names[1..], used + {tag});
    assert TagsFrom(names, used) == [tag] + rest;
    if i == 0 {
      if Clean(names[0]) !in used {
        assert Try(Clean(names[0]), used, 1) == 1;
        assert TagsFrom(names, used)[0] == Clean(names[0]);
      }
    } else {
      FirstTagTaken(names[1..], used + {tag}, i - 1);
      assert tag in TagsFrom(names, used) by {
        assert TagsFrom(names, used)[0] == tag;
      }
    }
  }

  predicate Named(names: seq<string>, r: string) {
    exists i :: 0 <= i < |names| && Clean(names[i]) == r
  }

  /** A fixed name is minted as a tag exactly when some entry's clean name is that name. */
  lemma Collides(names: seq<string>, r: string)
    requires Wordy(r)
    ensures r in Tags(names) <==> Named(names, r)
  {
    if r in Tags(names) {
      var i :| 0 <= i < |names| && Tags(names)[i] == r;
      var k := TagShape(names, {}, i);
      WordyCandidate(Clean(names[i]), k, r);
    }
    if Named(names, r) {
      var i :| 0 <= i < |names| && Clean(names[i]) == r;
      FirstTagTaken(names, {}, i);
    }
  }

  /** `ref` means exactly one of the names in `file`. */
  predicate Resolves(file: seq<string>, ref: string) {
    multiset(file)[ref] == 1
  }

  lemma {:induction false} CountDistinct(list: seq<string>, x: string)
    requires Distinct(list)
    ensures multiset(list)[x] == if x in list then 1 else 0
  {
    if list != [] {
      assert list == [list[0]] + list[1..];
      CountDistinct(list[1..], x);
    }
  }

  /** References by tag resolve exactly when no tag repeats one of the file's fixed names. */
  lemma ResolvesAll(tags: seq<string>, fixed: seq<string>, refs: seq<string>)
    requires Distinct(tags) && Distinct(fixed)
    requires forall r :: r in refs ==> r in fixed
    ensures (forall r :: r in tags + refs ==> Resolves(tags + fixed, r)) <==>
      (forall r :: r in fixed ==> r !in tags)
  {
    forall r
      ensures multiset(tags + fixed)[r] == (if r in tags then 1 else 0) + (if r in fixed then 1 else 0)
    {
      CountDistinct(tags, r);
      CountDistinct(fixed, r);
    }
    if r :| r in fixed && r in tags {
      assert r in tags + refs && !Resolves(tags + fixed, r);
    }
  }

  // ---------------------------------------------------------------- sing-box

  const SINGBOX_FIXED := ["proxy", "direct", "block"]

  /** The tags of a sing-box file: what the selector lists, and what the outbounds are called. */
  method SingboxTags(names: seq<string>) returns (actors: seq<string>, outbounds: seq<string>)
    ensures actors == Tags(names) + ["direct"]
    ensures outbounds == ["proxy"] + Tags(names) + ["direct", "block"]
  {
    var tags := MintAll(names);
    actors := tags + ["direct"];
    outbounds := ["proxy"] + tags + ["direct", "block"];
  }

  /** The loop every writer runs over its entries. */
  method MintAll(names: seq<string>) returns (tags: seq<string>)
    ensures tags == Tags(names)
  {
    hide TagFor, Clean;
    var minter := new Minter();
    tags := [];
    for i := 0 to |names|
      invariant Tags(names) == tags + TagsFrom(names[i..], minter.used)
    {
      var tag := minter.Mint(names[i]);
      tags := tags + [tag];
    }
  }

  lemma SingboxFixedNames()
    ensures Distinct(SINGBOX_FIXED)
    ensures forall r :: r in SINGBOX_FIXED <==> r == "proxy" || r == "direct" || r == "block"
    ensures Wordy("proxy") && Wordy("direct") && Wordy("block")
  {
    assert SINGBOX_FIXED[0] == "proxy" && SINGBOX_FIXED[1] == "direct" && SINGBOX_FIXED[2] == "block";
  }

  /** Every tag the selector lists names exactly one outbound of the file, unless an entry is
      called like one of the three fixed outbounds. */
  lemma SingboxSelectorResolves(names: seq<string>)
    ensures (forall r :: r in Tags(names) + ["direct"] ==>
              Resolves(["proxy"] + Tags(names) + ["direct", "block"], r)) <==>
      !Named(names, "proxy") && !Named(names, "direct") && !Named(names, "block")
  {
    hide Tags, Named, Wordy;
    var tags := Tags(names);
    TagsDistinct(names);
    SingboxFixedNames();
    ResolvesAll(tags, SINGBOX_FIXED, ["direct"]);
    assert multiset(["proxy"] + tags + ["direct", "block"]) == multiset(tags + SINGBOX_FIXED);
    Collides(names, "proxy");
    Collides(names, "direct");
    Collides(names, "block");
  }

  // ---------------------------------------------------------------- Clash

  /** Group names and built-in policies of a Clash file with `n` proxies. */
  function ClashFixed(n: nat): seq<string> {
    ["TiTaN", "DIRECT", "REJECT"] + if n > 1 then ["TiTaN-Auto"] else []
  }

  /** The names of a Clash file: the proxies, the members of the select group and of the test
      group (empty when the group is left out), and the group the last rule refers to. */
  method ClashNames(names: seq<string>)
    returns (proxies: seq<string>, select: seq<string>, auto: seq<string>, last: string)
    ensures proxies == Tags(names)
    ensures select == Tags(names) + ["DIRECT", "REJECT"]
    ensures auto == if |names| > 1 then Tags(names) else []
    ensures last in ClashFixed(|names|) && last != "DIRECT" && last != "REJECT"
  {
    proxies := MintAll(names);
    select := proxies + ["DIRECT", "REJECT"];
    auto := if |proxies| > 1 then proxies else [];
    last := if |proxies| > 1 then "TiTaN-Auto" else "TiTaN";
    assert |names| > 1 ==> ClashFixed(|names|)[3] == "TiTaN-Auto";
    assert ClashFixed(|names|)[0] == "TiTaN";
  }

  lemma ClashFixedNames(n: nat)
    ensures Distinct(ClashFixed(n))
    ensures forall r :: r in ClashFixed(n) <==>
      r == "TiTaN" || r == "DIRECT" || r == "REJECT" || (n > 1 && r == "TiTaN-Auto")
    ensures Wordy("TiTaN") && Wordy("DIRECT") && Wordy("REJECT") && Wordy("TiTaN-Auto")
  {
    var fixed := ClashFixed(n);
    assert fixed[0] == "TiTaN" && fixed[1] == "DIRECT" && fixed[2] == "REJECT";
    assert n > 1 ==> fixed[3] == "TiTaN-Auto";
  }

  /** Every member of a Clash group names exactly one proxy, group or built-in policy, unless a
      proxy is called like one of those. */
  lemma ClashGroupsResolve(names: seq<string>)
    ensures (forall r :: r in Tags(names) + ["DIRECT", "REJECT"] ==>
              Resolves(Tags(names) + ClashFixed(|names|), r)) <==>
      && !Named(names, "TiTaN") && !Named(names, "DIRECT") && !Named(names, "REJECT")
      && (|names| > 1 ==> !Named(names, "TiTaN-Auto"))
  {
    hide Tags, Named, Resolves, Wordy, ClashFixed;
    TagsDistinct(names);
    ClashFixedNames(|names|);
    ResolvesAll(Tags(names), ClashFixed(|names|), ["DIRECT", "REJECT"]);
    Collides(names, "TiTaN");
    Collides(names, "DIRECT");
    Collides(names, "REJECT");
    Collides(names, "TiTaN-Auto");
  }

  /** A link without a name is called "TiTaN", so its proxy shadows the select group. */
  lemma UnnamedEntryCollides()
    ensures Named([""], "TiTaN")
    ensures !forall r :: r in Tags([""]) + ["DIRECT", "REJECT"] ==> Resolves(Tags([""]) + ClashFixed(1), r)
  {
    hide Clean, Resolves, Tags, ClashFixed;
    CleanEmpty();
    assert Clean([""][0]) == "TiTaN";
    ClashGroupsResolve([""]);
  }

  lemma CleanEmpty()
    ensures Clean("") == "TiTaN"
  {
    assert Dashed("TiTaN") == "TiTaN";
  }

  lemma SecondTry(clean: string)
    ensures Candidate(clean, Try(clean, {clean}, 1)) == clean + "-2"
  {
    assert Decimal.Print(2) == "2";
    NoneTaken(clean, {clean});
    CandidateText(clean, 2);
    TakeOne(clean, {clean}, 1);
    assert Candidate(clean, 2) !in {clean};
    assert Try(clean, {clean}, 2) == 2;
    assert Try(clean, {clean}, 1) == 2;
  }

  /** Two links of one name: the first keeps it, the second is numbered 2. */
  lemma TwinTags(name: string)
    ensures Tags([name, name]) == [Clean(name), Clean(name) + "-2"]
  {
    hide Clean;
    var clean := Clean(name);
    SecondTry(clean);
    assert TagFor(name, {}) == clean;
    assert [name, name][1..] == [name];
    assert TagsFrom([name], {} + {clean}) == [clean + "-2"];
  }
}
