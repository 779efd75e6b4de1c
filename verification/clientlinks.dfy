/** From a list of links to the entries of a client file (app/subfmt.py: `parse_links`), with the
    panel's own status link (app/links.py: `build_links`) and the Hysteria2 link. */
module ClientLinks {
  import opened Wrappers
  import opened Text
  import opened Percent
  import opened Keys
  import opened Links
  import opened Parser
  import opened LinkReading
  import Decimal
  import VmessJson

  const INFO_UUID := "00000000-0000-0000-0000-000000000001"
  const LOOPBACK: set<string> := {"127.0.0.1", "localhost", "::1", "0.0.0.0"}

  predicate StatusEntry(e: Entry) {
    e.user == INFO_UUID && e.server in LOOPBACK
  }

  predicate Usable(e: Option<Entry>) {
    e.Some? && !StatusEntry(e.value) && e.value.server != "" && e.value.port != 0
  }

  datatype Skip = Skip(name: string, reason: string)

  /** The entries of the links that have a client form, in order. */
  function Entries(json: VmessJson.Json, links: seq<string>): seq<Entry> {
    if links == [] then []
    else
      var e := ParseLink(json, links[|links| - 1]);
      Entries(json, links[..|links| - 1]) + if Usable(e) then [e.value] else []
  }

  function SkipOf(json: VmessJson.Json, link: string): seq<Skip> {
    var e := ParseLink(json, link);
    if e.Some? && StatusEntry(e.value) then [Skip(e.value.name, "it is the usage-remark link, not a config")]
    else if Usable(e) || link == "" then []
    else [Skip(Or(Unquote(AfterLast(link, '#')), "\U{2014}"), "no client-config form for this link type")]
  }

  function Skipped(json: VmessJson.Json, links: seq<string>): seq<Skip> {
    if links == [] then [] else Skipped(json, links[..|links| - 1]) + SkipOf(json, links[|links| - 1])
  }

  /** `parse_links` */
  method ParseLinks(json: VmessJson.Json, links: seq<string>) returns (entries: seq<Entry>, skipped: seq<Skip>)
    ensures entries == Entries(json, links) && skipped == Skipped(json, links)
  {
    hide ParseLink, StatusEntry, Unquote, AfterLast;
    entries, skipped := [], [];
    for i := 0 to |links|
      invariant entries == Entries(json, links[..i]) && skipped == Skipped(json, links[..i])
    {
      assert links[..i + 1][..i] == links[..i];
      var entry := ParseLink(json, links[i]);
      if entry.Some? && StatusEntry(entry.value) {
        skipped := skipped + [Skip(entry.value.name, "it is the usage-remark link, not a config")];
        continue;
      }
      if entry.Some? && entry.value.server != "" && entry.value.port != 0 {
        entries := entries + [entry.value];
      } else if links[i] != "" {
        skipped := skipped + [Skip(Or(Unquote(AfterLast(links[i], '#')), "\U{2014}"),
                                   "no client-config form for this link type")];
      }
    }
    assert links[..|links|] == links;
  }

  function NonEmpty(links: seq<string>): nat {
    if links == [] then 0 else NonEmpty(links[..|links| - 1]) + if links[|links| - 1] == "" then 0 else 1
  }

  lemma EmptyLink(json: VmessJson.Json)
    ensures ParseLink(json, "") == None
  {
    NoScheme("");
    assert SchemeOf("") == "";
    Unsupported();
  }

  lemma NoScheme(s: string)
    requires s == ""
    ensures Strip(s) == "" && Find(s, "://") == 0
  {
  }

  lemma Unsupported()
    ensures "" !in SUPPORTED
  {
  }

  lemma OneSkip(json: VmessJson.Json, link: string)
    ensures var e := ParseLink(json, link);
      |SkipOf(json, link)| == if link == "" || Usable(e) then 0 else 1
  {
    hide ParseLink, Unquote, AfterLast;
    EmptyLink(json);
  }

  lemma {:induction false} ListsCount(json: VmessJson.Json, links: seq<string>)
    ensures |Entries(json, links)| + |Skipped(json, links)| == NonEmpty(links)
  {
    hide ParseLink, SkipOf, Usable;
    if links != [] {
      var link := links[|links| - 1];
      ListsCount(json, links[..|links| - 1]);
      EmptyLink(json);
      EmptyUnusable();
      OneSkip(json, link);
    }
  }

  lemma {:induction false} ListsGrow(json: VmessJson.Json, links: seq<string>, i: nat)
    requires i <= |links|
    ensures Entries(json, links[..i]) <= Entries(json, links) && Skipped(json, links[..i]) <= Skipped(json, links)
    decreases |links|
  {
    hide ParseLink, SkipOf, Usable;
    if i < |links| {
      assert links[..|links| - 1][..i] == links[..i];
      ListsGrow(json, links[..|links| - 1], i);
    } else {
      assert links[..i] == links;
    }
  }

  /** The panel's own status link, which points back at the panel's machine. */
  predicate OwnStatus(e: Entry) {
    e.user == "00000000-0000-0000-0000-000000000001" &&
    (e.server == "127.0.0.1" || e.server == "localhost" || e.server == "::1" || e.server == "0.0.0.0")
  }

  /** A skipped line names the link and says why: a status link by its remark, any other one by what
      stands behind its last '#', or by a dash. */
  predicate SkipTells(skip: Skip, link: string, e: Option<Entry>) {
    if e.Some? && OwnStatus(e.value) then
      skip.name == e.value.name && skip.reason == "it is the usage-remark link, not a config"
    else
      var name := Unquote(AfterLast(link, '#'));
      && skip.name == (if name == "" then "\U{2014}" else name)
      && skip.reason == "no client-config form for this link type"
  }

  lemma UsableExactly(e: Option<Entry>)
    ensures Usable(e) <==> e.Some? && e.value.server != "" && e.value.port != 0 && !OwnStatus(e.value)
  {
  }

  lemma SkipReason(json: VmessJson.Json, link: string)
    ensures var skips := SkipOf(json, link);
      |skips| <= 1 && forall skip :: skip in skips ==> SkipTells(skip, link, ParseLink(json, link))
  {
    hide ParseLink, Unquote, AfterLast;
  }

  /** Every link that is not empty ends up either in the file or, with a reason, in the list of
      skipped ones, never in both; an empty one ends up in neither. Both lists keep the order of the
      links: what link `i` leaves stands right behind what the links before it left. */
  lemma EveryLinkAccounted(json: VmessJson.Json, links: seq<string>, i: nat)
    requires i < |links|
    ensures var e, before, after := ParseLink(json, links[i]), links[..i], links[..i + 1];
      var m, n := |Entries(json, before)|, |Skipped(json, before)|;
      && m + n == NonEmpty(before)
      && |Entries(json, after)| == m + (if Usable(e) then 1 else 0)
      && |Skipped(json, after)| == n + (if links[i] == "" || Usable(e) then 0 else 1)
      && (links[i] == "" ==> !Usable(e))
      && (Usable(e) ==> m < |Entries(json, links)| && Entries(json, links)[m] == e.value)
      && (links[i] != "" && !Usable(e) ==>
            n < |Skipped(json, links)| && SkipTells(Skipped(json, links)[n], links[i], e))
      && (Usable(e) <==> e.Some? && e.value.server != "" && e.value.port != 0 && !OwnStatus(e.value))
    ensures |Entries(json, links)| + |Skipped(json, links)| == NonEmpty(links)
  {
    hide ParseLink, SkipOf, Usable, SkipTells, OwnStatus;
    var before, after := links[..i], links[..i + 1];
    assert after[..i] == before;
    SkipReason(json, links[i]);
    UsableExactly(ParseLink(json, links[i]));
    ListsCount(json, before);
    ListsCount(json, links);
    ListsGrow(json, links, i + 1);
    OneSkip(json, links[i]);
    EmptyLink(json);
    EmptyUnusable();
  }

  lemma EmptyUnusable()
    ensures !Usable(None)
  {
  }

  // ---------------------------------------------------------------- the status link

  function StatusQuery(): string {
    Put(Put(Put(Put("", Encryption, "none"), Security, "none"), Type, "tcp"), HeaderType, "none")
  }

  /** The link whose only content is its remark. */
  function StatusLink(remark: string): string {
    Uri("vless", INFO_UUID, "127.0.0.1", 10001, StatusQuery(), QuotePath(remark))
  }

  lemma StatusParts()
    ensures HostText("127.0.0.1") && "127.0.0.1" in LOOPBACK
  {
  }

  lemma InfoUuidText()
    ensures CredText(INFO_UUID) && '%' !in INFO_UUID
  {
    assert forall i :: 0 <= i < |INFO_UUID| ==> INFO_UUID[i] == '-' || '0' <= INFO_UUID[i] <= '1';
  }

  /** The status link never becomes an outbound, whatever its remark is. */
  lemma StatusLinkSkipped(json: VmessJson.Json, remark: string)
    requires remark != ""
    ensures var e := ParseLink(json, StatusLink(remark)); e.Some? && StatusEntry(e.value) && !Usable(e)
  {
    hide ParseLink, Uri, Reading, Put, CredText, HostText, QuotePath, Unquote, IsSpace, INFO_UUID, LOOPBACK, AlpnList,
      RawValue;
    Words();
    ReadSecurity("none");
    ReadTcpPlain(Put(Put("", Encryption, "none"), Security, "none"));
    StatusParts();
    InfoUuidText();
    ReadName(remark);
    UnquotePlain(INFO_UUID);
    ReadUri(json, "vless", INFO_UUID, "127.0.0.1", 10001, StatusQuery(), QuotePath(remark));
  }

  // ---------------------------------------------------------------- Hysteria2

  function Hy2Query(sni: string, obfs: string): string {
    var q := Put(Put(Put("", Sni, QuoteAll(sni)), Insecure, "0"), Alpn, "h3");
    if obfs == "" then q else Put(Put(q, Obfs, "salamander"), ObfsPassword, QuoteAll(obfs))
  }

  /** `build_hy2_link`: a '/' stands between the port and the query. */
  function BuildHy2(host: string, port: nat, auth: string, sni: string, obfs: string, name: string): string {
    Link("hysteria2", QuoteAll(auth) + "@" + (host + ":" + (Decimal.Print(port) + "/")) + "?" + Hy2Query(sni, obfs) +
                      "#" + QuotePath(name))
  }

  /** A printed port with a '/' behind it is no number. */
  lemma SlashedPort(port: nat)
    ensures Decimal.ParseInt(Decimal.Print(port) + "/") == None
    ensures var p := Decimal.Print(port) + "/"; ':' !in p && '?' !in p && '#' !in p && '@' !in p
  {
    hide Decimal.Print;
    PortText(port);
    var p := Decimal.Print(port);
    var t := p + "/";
    assert IsDigit(p[0]);
    DigitSolid(p[0]);
    SlashIsSolid();
    assert t[0] == p[0] && t[|t| - 1] == '/';
    StripSolid(t);
    SlashNotSigned(p);
  }

  lemma DigitSolid(c: char)
    requires IsDigit(c)
    ensures !IsSpace(c)
  {
  }

  lemma SlashNotSigned(p: string)
    requires p != "" && IsDigit(p[0])
    ensures !Decimal.IsSigned(p + "/")
  {
    var t := p + "/";
    assert t[|p|] == '/' && t[0] == p[0];
  }

  lemma ReadHy2Location(host: string, port: nat)
    requires HostText(host)
    ensures var loc := host + ":" + (Decimal.Print(port) + "/");
      HostOf(loc) == host && PortOf(loc) == 443 && '?' !in loc && '#' !in loc && '@' !in loc
  {
    hide Decimal.Print, Decimal.ParseInt, Count, BeforeLast, AfterLast, Before;
    var p := Decimal.Print(port) + "/";
    SlashedPort(port);
    assert ':' !in host && '?' !in host && '#' !in host && '@' !in host;
    assert host + ":" + p == host + [':'] + p;
    OneSeparator(host, ':', p);
  }

  lemma ReadHy2Body(json: VmessJson.Json, host: string, port: nat, cred: string, query: string, frag: string)
    requires HostText(host) && CredText(cred) && '#' !in query
    ensures var loc := host + ":" + (Decimal.Print(port) + "/");
      ParseBody(json, "hysteria2", cred + "@" + loc + "?" + query + "#" + frag) ==
        Some(ParamEntry("hysteria2", Or(Unquote(frag), "TiTaN"), Unquote(cred), host, 443, Reading(query)))
  {
    hide HostOf, PortOf, Before, After, Reading, AlpnList, Unquote, Decimal.Print, SsEntry, VmessEntry, B64Json;
    var loc := host + ":" + (Decimal.Print(port) + "/");
    var rest := cred + "@" + loc;
    ReadHy2Location(host, port);
    assert '?' !in cred && '#' !in cred;
    BeforeAfterAt(cred, loc);
    ReadBody(rest, query, frag);
  }

  lemma BeforeAfterAt(cred: string, loc: string)
    requires CredText(cred)
    ensures Before(cred + "@" + loc, '@') == cred && After(cred + "@" + loc, '@') == loc
  {
    assert cred + "@" + loc == cred + ['@'] + loc;
    IndexOfAppend(cred, '@', loc);
  }

  lemma Hy2Words()
    ensures RawValue("0") && RawValue("h3") && RawValue("salamander")
  {
  }

  lemma ReadHy2Query(sni: string, obfs: string)
    ensures '#' !in Hy2Query(sni, obfs)
    ensures Reading(Hy2Query(sni, obfs)).obfsParam == ""
  {
    hide Reading, Put, QuoteAll, RawValue;
    Hy2Words();
    EmptyQuery();
    PutAll("", Sni, sni);
    var q1 := Put("", Sni, QuoteAll(sni));
    PutPlain(q1, Insecure, "0");
    var q2 := Put(q1, Insecure, "0");
    PutPlain(q2, Alpn, "h3");
    var q3 := Put(q2, Alpn, "h3");
    PutPlain(q3, Obfs, "salamander");
    PutAll(Put(q3, Obfs, "salamander"), ObfsPassword, obfs);
  }

  lemma Hy2Scheme()
    ensures !IsSpace("hysteria2"[0]) && ':' !in "hysteria2" && Lower("hysteria2") == "hysteria2"
  {
  }

  /** A Hysteria2 link gives back host and password, but never its port, which is read as 443, and never
      its obfuscation password: the port survives exactly when it is 443. */
  lemma Hy2LosesPort(json: VmessJson.Json, host: string, port: nat, auth: string, sni: string, obfs: string,
                     name: string)
    requires HostText(host) && name != ""
    ensures var e := ParseLink(json, BuildHy2(host, port, auth, sni, obfs, name));
      && e.Some? && e.value.server == host && e.value.user == auth && e.value.obfsParam == ""
      && e.value.port == 443 && (e.value.port == port <==> port == 443)
  {
    var loc := host + ":" + (Decimal.Print(port) + "/");
    var body := QuoteAll(auth) + "@" + loc + "?" + Hy2Query(sni, obfs) + "#" + QuotePath(name);
    hide HostText, CredText, QuoteAll, QuotePath, Unquote, Reading, Hy2Query, Decimal.Print, ParseBody, SchemeOf, Strip,
      Find, Lower, IsSpace, AlpnList;
    QuotedCred(auth);
    ReadHy2Query(sni, obfs);
    ReadName(name);
    ReadHy2Body(json, host, port, QuoteAll(auth), Hy2Query(sni, obfs), QuotePath(name));
    Hy2Scheme();
    FindScheme("hysteria2", body);
  }
}
