/** What the reader makes of links the panel did not write: alternative parameter names, missing
    ones, and escapes (app/subfmt.py: `parse_link`). */
module ForeignLinks {
  import opened Wrappers
  import opened Text
  import opened Percent
  import opened Keys
  import opened Parser
  import opened LinkReading
  import opened ShadowsocksLinks
  import Decimal
  import VmessJson

  /** The parameter of this name, or "". */
  function Given(p: map<string, string>, name: string): string {
    if name in p then p[name] else ""
  }

  /** The first one that is given. */
  function Either(a: string, b: string): string {
    if a == "" then b else a
  }

  lemma ReaderNames()
    ensures Name(Type) == "type" && Name(Security) == "security" && Name(Path) == "path" && Name(Host) == "host"
    ensures Name(Sni) == "sni" && Name(Fp) == "fp" && Name(Alpn) == "alpn" && Name(Flow) == "flow"
    ensures Name(Mode) == "mode"
    ensures Name(ServiceName) == "serviceName" && Name(Encryption) == "encryption" && Name(Obfs) == "obfs"
    ensures Name(ObfsParam) == "obfsParam" && Name(Pbk) == "pbk" && Name(PublicKey) == "publicKey" && Name(Sid) == "sid"
    ensures Name(ShortId) == "shortId" && Name(Spx) == "spx" && Name(SpiderX) == "spiderX"
    ensures Name(AllowInsecure) == "allowInsecure" && Name(Insecure) == "insecure"
  {
  }

  lemma Spelled(p: map<string, string>)
    ensures var f := FieldsOf(p);
      && f.network == Given(p, "type") && f.security == Given(p, "security") && f.path == Given(p, "path")
      && f.host == Given(p, "host") && f.sni == Given(p, "sni") && f.fp == Given(p, "fp") && f.alpn == Given(p, "alpn")
      && f.flow == Given(p, "flow") && f.mode == Given(p, "mode") && f.service == Given(p, "serviceName")
      && f.encryption == Given(p, "encryption") && f.obfs == Given(p, "obfs") && f.obfsParam == Given(p, "obfsParam")
      && f.pbk == Given(p, "pbk") && f.publicKey == Given(p, "publicKey") && f.sid == Given(p, "sid")
      && f.shortId == Given(p, "shortId") && f.spx == Given(p, "spx") && f.spiderX == Given(p, "spiderX")
      && f.allowInsecure == Given(p, "allowInsecure") && f.insecure == Given(p, "insecure")
  {
    ReaderNames();
    forall k
      ensures Get(p, k) == Given(p, Name(k))
    {
    }
    hide Name, Get, Given;
  }

  /** For any parameters at all: each property of a vless, trojan or hysteria2 entry comes from the
      parameter of that name, the second name stands in where the first one is missing, and what is
      missing altogether has the stated default. */
  lemma ReadsAnyParams(kind: string, name: string, cred: string, server: string, port: int, p: map<string, string>)
    ensures var e := ParamEntry(kind, name, cred, server, port, FieldsOf(p));
      && e.kind == kind && e.name == name && e.user == cred && e.password == cred
      && e.server == server && e.port == port
      && e.transport == (if kind == "hysteria2" then "hysteria" else Either(Given(p, "type"), "tcp"))
      && e.security == Either(Given(p, "security"), if kind == "trojan" then "tls" else "none")
      && e.path == Given(p, "path") && e.host == Given(p, "host") && e.sni == Given(p, "sni") && e.fp == Given(p, "fp")
      && e.flow == Given(p, "flow") && e.mode == Given(p, "mode") && e.service == Given(p, "serviceName")
      && e.pbk == Either(Given(p, "pbk"), Given(p, "publicKey"))
      && e.sid == Either(Given(p, "sid"), Given(p, "shortId"))
      && e.spx == Either(Given(p, "spx"), Given(p, "spiderX"))
      && (e.insecure <==> Either(Given(p, "allowInsecure"), Given(p, "insecure")) in {"1", "true"})
      && e.cipher == Given(p, "encryption") && e.obfs == Given(p, "obfs") && e.obfsParam == Given(p, "obfsParam")
  {
    hide FieldsOf, AlpnList, Given;
    Spelled(p);
  }

  /** The list of protocols holds the pieces between commas that are not empty, in their order. */
  lemma {:induction false} NotEmptyParts(a: seq<string>, b: seq<string>)
    ensures NotEmpty(a + b) == NotEmpty(a) + NotEmpty(b)
    ensures |a| == 1 ==> NotEmpty(a) == if a[0] == "" then [] else a
  {
    if a == [] {
      assert a + b == b;
    } else {
      assert (a + b)[0] == a[0] && (a + b)[1..] == a[1..] + b;
      NotEmptyParts(a[1..], b);
    }
  }

  /** A URI without a name is called after the panel. */
  lemma NamelessUri(json: VmessJson.Json, scheme: string, cred: string, host: string, port: nat, query: string)
    requires scheme == "vless" || scheme == "trojan"
    requires CredText(cred) && HostText(host) && '#' !in query
    ensures var rest := cred + "@" + host + ":" + Decimal.Print(port);
      var e := ParseBody(json, scheme, rest + "?" + query);
      e.Some? && e.value.name == "TiTaN" && e.value.user == Unquote(cred)
  {
    hide HostOf, PortOf, Reading, AlpnList, Unquote, Decimal.Print, SsEntry, VmessEntry, B64Json, CredText;
    hide Before, After;
    ReadAuthority(cred, host, port);
    WithoutFragment(cred + "@" + host + ":" + Decimal.Print(port), query);
    NoText();
  }

  lemma WithoutFragment(rest: string, query: string)
    requires '?' !in rest && '#' !in rest && '#' !in query
    ensures var body := rest + "?" + query;
      After(body, '#') == "" && Before(body, '#') == body && Before(body, '?') == rest && After(body, '?') == query
  {
    var body := rest + "?" + query;
    assert body == rest + ['?'] + query;
    IndexOfAppend(rest, '?', query);
    assert '#' !in body;
  }

  lemma NoText()
    ensures Unquote("") == ""
  {
  }

  /** A quoted Shadowsocks password may be any text. */
  lemma QuotedSsPassword(cipher: string, password: string, host: string, port: nat, name: string)
    requires PlainWord(cipher) && cipher != "" && password != "" && HostText(host)
    ensures SsEntry(cipher + ":" + QuoteAll(password) + "@" + host + ":" + Decimal.Print(port), name) ==
      Some(Blank("shadowsocks", name, host, port).(cipher := cipher, password := password))
  {
    hide HostOf, PortOf, Decimal.Print, HostText, Unquote, B64Text, QuoteAll, Before, After;
    var q := QuoteAll(password);
    var head := cipher + ":" + q;
    QuotedCred(password);
    QuotedHead(cipher, q);
    ReadAuthority(head, host, port);
  }

  lemma QuotedHead(cipher: string, q: string)
    requires PlainWord(cipher) && CredText(q)
    ensures var head := cipher + ":" + q;
      ':' in head && CredText(head) && Before(head, ':') == cipher && After(head, ':') == q
  {
    var head := cipher + ":" + q;
    assert head == cipher + [':'] + q;
    assert head[|cipher|] == ':';
    assert ':' !in cipher;
    IndexOfAppend(cipher, ':', q);
  }

  /** For any record at all: what is missing from a vmess record has the stated default. */
  lemma ReadsAnyRecord(obj: VmessJson.Object, name: string)
    ensures var e := VmessEntry(obj, name);
      var get := (m: VmessJson.Member) => if m in obj then obj[m] else "";
      && e.kind == "vmess" && e.name == Either(get(VmessJson.Ps), name) && e.server == get(VmessJson.Add)
      && (VmessJson.Port !in obj ==> e.port == 443)
      && (VmessJson.Port in obj && ':' !in obj[VmessJson.Port] ==>
            match Decimal.ParseInt(obj[VmessJson.Port]) case Some(n) => e.port == n case None => e.port == 443)
      && e.user == get(VmessJson.Id) && e.cipher == Either(get(VmessJson.Scy), "auto")
      && e.transport == (if get(VmessJson.Net) in {"ws", "grpc", "httpupgrade", "xhttp"} then get(VmessJson.Net)
                         else "tcp")
      && e.security == (if get(VmessJson.Tls) == "tls" then "tls" else "none")
      && e.path == get(VmessJson.Path) && e.host == get(VmessJson.Host) && e.sni == get(VmessJson.Sni)
      && e.fp == get(VmessJson.Fp) && e.service == get(VmessJson.ServiceName)
  {
    hide AlpnList, Decimal.ParseInt;
    if VmessJson.Port in obj && ':' !in obj[VmessJson.Port] {
      assert AfterLast(obj[VmessJson.Port], ':') == obj[VmessJson.Port];
    }
  }

  lemma SchemeWords()
    ensures forall w :: w in SUPPORTED <==>
      w == "vless" || w == "vmess" || w == "trojan" || w == "shadowsocks" || w == "hysteria2"
  {
  }

  /** Which links give no entry: those of any other scheme, and WireGuard; a vmess link without a
      readable record; a Shadowsocks link without method or password; any other without a server. */
  lemma RefusedExactly(json: VmessJson.Json, scheme: string, body: string)
    ensures var rest := Before(Before(body, '#'), '?');
      ParseBody(json, scheme, body) == None <==>
        match scheme
        case "vless" => HostOf(After(rest, '@')) == ""
        case "trojan" => HostOf(After(rest, '@')) == ""
        case "hysteria2" => HostOf(After(rest, '@')) == ""
        case "vmess" => B64Json(json, rest) == map[]
        case "shadowsocks" => SsEntry(rest, "") == None
        case _ => true
  {
    hide HostOf, PortOf, Before, After, Reading, AlpnList, Unquote, B64Json, SUPPORTED, VmessEntry, B64Text;
    SchemeWords();
  }

  /** Spaces around a link do not matter. */
  lemma SpacesIgnored(json: VmessJson.Json, text: string)
    ensures ParseLink(json, Strip(text)) == ParseLink(json, text)
  {
    hide ParseBody, SchemeOf, Find, IsSpace;
    var a, b := StripExactly(text);
    if Strip(text) != "" {
      StripSolid(Strip(text));
    }
  }

  /** Nor does the case of the scheme, of which `ss` is the short form of another. */
  lemma AnyCase(json: VmessJson.Json, scheme: string, body: string)
    requires scheme != "" && ':' !in scheme && !IsSpace(scheme[0]) && (body == "" || !IsSpace(body[|body| - 1]))
    ensures ParseLink(json, scheme + "://" + body) ==
      ParseBody(json, if Lower(scheme) == "ss" then "shadowsocks" else Lower(scheme), body)
  {
    hide ParseBody, Find, Strip, Lower, IsSpace;
    var link := scheme + "://" + body;
    assert link[|link| - 1] == if body == "" then '/' else body[|body| - 1];
    SlashIsSolid();
    StripSolid(link);
    FindAppend(scheme, "://", body);
    assert link[..|scheme|] == scheme && link[|scheme| + 3..] == body;
  }

  /** With more than one colon, as in an IPv6 address, the host is what stands before the first one;
      without any it is the whole location. */
  lemma OddLocations(a: string, b: string, c: string)
    requires ':' !in a
    ensures HostOf(a + [':'] + b + [':'] + c) == a && HostOf(a) == a
  {
    var loc := a + [':'] + b + [':'] + c;
    assert loc == a + [':'] + (b + [':'] + c);
    IndexOfAppend(a, ':', b + [':'] + c);
    CountAppend(a + [':'] + b + [':'], c, ':');
    CountAppend(a + [':'] + b, [':'], ':');
    CountAppend(a + [':'], b, ':');
    CountAppend(a, [':'], ':');
    OneColon();
    CountNone(a, ':');
  }

  lemma OneColon()
    ensures Count([':'], ':') == 1
  {
    assert Count("", ':') == 0;
  }
}
