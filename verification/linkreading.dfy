/** How the link reader takes a built URI apart again: the frame, the name and each parameter group. */
module LinkReading {
  import opened Wrappers
  import opened Text
  import opened Percent
  import opened Keys
  import opened Users
  import opened Links
  import opened Parser
  import Decimal
  import VmessJson

  /** A host name or IPv4 address as `_public_host` leaves it. */
  predicate HostText(host: string) {
    host != "" && forall i :: 0 <= i < |host| ==> host[i] !in ":@?#"
  }

  /** A credential that can stand in front of '@'. */
  predicate CredText(cred: string) {
    forall i :: 0 <= i < |cred| ==> cred[i] !in "@?#"
  }

  // ---------------------------------------------------------------- the URI frame

  lemma StripSolid(s: string)
    requires s != "" && !IsSpace(s[0]) && !IsSpace(s[|s| - 1])
    ensures Strip(s) == s
  {
  }

  lemma SlashIsSolid()
    ensures !IsSpace('/')
  {
  }

  /** A link starts with its scheme and ends with a visible character. */
  lemma FindScheme(scheme: string, body: string)
    requires scheme != "" && !IsSpace(scheme[0]) && ':' !in scheme && Lower(scheme) == scheme
    requires body == "" || !IsSpace(body[|body| - 1])
    ensures var link := Link(scheme, body);
      && Strip(link) == link
      && Find(link, "://") == |scheme|
      && link[|scheme| + 3..] == body
      && SchemeOf(link) == if scheme == "ss" then "shadowsocks" else scheme
  {
    hide Find, Strip, Lower, IsSpace;
    var link := Link(scheme, body);
    assert link[|link| - 1] == if body == "" then '/' else body[|body| - 1];
    assert !IsSpace('/') by { SlashIsSolid(); }
    StripSolid(link);
    FindAppend(scheme, "://", body);
    assert link[..|scheme|] == scheme;
  }

  lemma SchemeText(scheme: string)
    requires scheme == "vless" || scheme == "trojan" || scheme == "ss" || scheme == "vmess"
    ensures scheme != "" && !IsSpace(scheme[0]) && ':' !in scheme && Lower(scheme) == scheme
  {
    if scheme == "vless" {
    } else if scheme == "trojan" {
    } else if scheme == "ss" {
    } else {
    }
  }

  lemma PortText(port: nat)
    ensures var p := Decimal.Print(port);
      ':' !in p && '?' !in p && '#' !in p && '@' !in p
  {
    var p := Decimal.Print(port);
    assert forall i :: 0 <= i < |p| ==> IsDigit(p[i]);
  }

  lemma ReadLocation(host: string, port: nat)
    requires HostText(host)
    ensures var loc := host + ":" + Decimal.Print(port);
      && HostOf(loc) == host && PortOf(loc) == port
      && '?' !in loc && '#' !in loc && '@' !in loc
  {
    hide Decimal.Print, Decimal.ParseInt, Decimal.PrintInt, Count, BeforeLast, AfterLast, Before;
    var p := Decimal.Print(port);
    PortText(port);
    assert ':' !in host && '?' !in host && '#' !in host && '@' !in host;
    assert host + ":" + p == host + [':'] + p;
    OneSeparator(host, ':', p);
    ReadPort(port);
  }

  lemma ReadPort(port: nat)
    ensures Decimal.ParseInt(Decimal.Print(port)) == Some(port)
  {
    Decimal.ParsePrint(port);
  }

  lemma ReadBody(rest: string, query: string, frag: string)
    requires '?' !in rest && '#' !in rest && '#' !in query
    ensures var body := rest + "?" + query + "#" + frag;
      && After(body, '#') == frag
      && Before(Before(body, '#'), '?') == rest
      && After(Before(body, '#'), '?') == query
  {
    var left := rest + "?" + query;
    assert left == rest + ['?'] + query;
    assert rest + "?" + query + "#" + frag == left + ['#'] + frag;
    IndexOfAppend(left, '#', frag);
    IndexOfAppend(rest, '?', query);
  }

  lemma ReadAuthority(cred: string, host: string, port: nat)
    requires CredText(cred) && HostText(host)
    ensures var rest := cred + "@" + host + ":" + Decimal.Print(port);
      && '?' !in rest && '#' !in rest
      && Before(rest, '@') == cred
      && HostOf(After(rest, '@')) == host && PortOf(After(rest, '@')) == port
  {
    hide HostOf, PortOf, Decimal.Print, Before, After;
    var loc := host + ":" + Decimal.Print(port);
    ReadLocation(host, port);
    assert cred + "@" + host + ":" + Decimal.Print(port) == cred + ['@'] + loc;
    IndexOfAppend(cred, '@', loc);
  }

  lemma ReadUriBody(json: VmessJson.Json, scheme: string, cred: string, host: string, port: nat, query: string,
                    frag: string)
    requires scheme == "vless" || scheme == "trojan"
    requires CredText(cred) && HostText(host) && '#' !in query
    ensures ParseBody(json, scheme, (cred + "@" + host + ":" + Decimal.Print(port)) + "?" + query + "#" + frag) ==
      Some(ParamEntry(scheme, Or(Unquote(frag), "TiTaN"), Unquote(cred), host, port, Reading(query)))
  {
    hide HostOf, PortOf, Before, After, Reading, AlpnList, Unquote, Decimal.Print, SsEntry, VmessEntry, B64Json;
    var rest := cred + "@" + host + ":" + Decimal.Print(port);
    ReadAuthority(cred, host, port);
    ReadBody(rest, query, frag);
  }

  /** A URI is read back part by part. */
  lemma ReadUri(json: VmessJson.Json, scheme: string, cred: string, host: string, port: nat, query: string,
                frag: string)
    requires scheme == "vless" || scheme == "trojan"
    requires CredText(cred) && HostText(host) && '#' !in query
    requires frag != "" && !IsSpace(frag[|frag| - 1])
    ensures ParseLink(json, Uri(scheme, cred, host, port, query, frag)) ==
      Some(ParamEntry(scheme, Or(Unquote(frag), "TiTaN"), Unquote(cred), host, port, Reading(query)))
  {
    var rest := cred + "@" + host + ":" + Decimal.Print(port);
    var body := rest + "?" + query + "#" + frag;
    ReadUriBody(json, scheme, cred, host, port, query, frag);
    hide ParseBody, ParamEntry, Reading, Unquote, SchemeOf, Strip, Find, Decimal.Print, Lower, IsSpace,
      CredText, HostText;
    SchemeText(scheme);
    FindScheme(scheme, body);
  }

  /** A quoted display name survives, and a link ending in it has no trailing space. */
  lemma ReadName(name: string)
    requires name != ""
    ensures var q := QuotePath(name);
      && q != "" && !IsSpace(q[|q| - 1]) && Or(Unquote(q), "TiTaN") == name
  {
    hide Unquote, QuoteBytes;
    var q := Quote(name, "/");
    UnquoteQuote(name, "/");
    assert QuotedChar(q[|q| - 1], "/");
  }

  /** A quoted credential can stand in front of '@', and is read back. */
  lemma QuotedCred(cred: string)
    ensures CredText(QuoteAll(cred)) && Unquote(QuoteAll(cred)) == cred
  {
    hide QuoteBytes, Unquote;
    UnquoteQuote(cred, "");
    var q := QuoteAll(cred);
    forall i | 0 <= i < |q|
      ensures q[i] !in "@?#"
    {
      assert QuotedChar(q[i], "");
    }
  }

  // ---------------------------------------------------------------- parameters

  /** The words the builders write without quoting. */
  lemma Words()
    ensures RawValue("none") && RawValue("tcp") && RawValue("ws") && RawValue("grpc")
    ensures RawValue("tls") && RawValue("reality") && RawValue(VISION_FLOW)
  {
  }

  /** The optional fragment parameters, which the reader does not look at. */
  lemma ReadFragment(q: string, s: Settings)
    requires '#' !in q
    ensures Reading(WithFragment(q, s)) == Reading(q) && '#' !in WithFragment(q, s)
  {
    hide Reading, Put, QuoteAll;
    if s.fragment.Some? {
      var f := s.fragment.value;
      PutAll(q, FpLen, f.length);
      PutAll(Put(q, FpLen, QuoteAll(f.length)), FpInt, f.interval);
    }
  }

  lemma ReadAlpn(q: string, alpn: string)
    requires '#' !in q
    ensures Reading(WithAlpn(q, alpn)) == (if alpn == "" then Reading(q) else Reading(q).(alpn := alpn))
    ensures '#' !in WithAlpn(q, alpn)
  {
    hide Reading, Put, QuoteList;
    PutList(q, Alpn, alpn);
  }

  lemma {:induction false} NotEmptySame(parts: seq<string>)
    requires forall i :: 0 <= i < |parts| ==> parts[i] != ""
    ensures NotEmpty(parts) == parts
  {
    if parts != [] {
      NotEmptySame(parts[1..]);
    }
  }

  /** A comma-separated list of protocols is read back as the list. */
  lemma ReadAlpnList(parts: seq<string>)
    requires parts != [] && forall i :: 0 <= i < |parts| ==> parts[i] != "" && ',' !in parts[i]
    ensures AlpnList(Join(parts, ',')) == parts
  {
    SplitJoin(parts, ',');
    NotEmptySame(parts);
  }

  /** The mode an xhttp link pins, or "". */
  function PinnedMode(transport: string, s: Settings): string {
    var m := s.xhttpMode;
    if transport == "xhttp" && (m == "packet-up" || m == "stream-up" || m == "stream-one") then m else ""
  }

  lemma ReadMode(q: string, transport: string, s: Settings)
    requires '#' !in q && Reading(q).mode == ""
    ensures var r := WithMode(q, transport, s);
      '#' !in r && Reading(r) == Reading(q).(mode := PinnedMode(transport, s))
  {
    hide Reading, Put, QuoteAll;
    PutAll(q, Mode, s.xhttpMode);
  }

  function PathFields(f: Fields, host: string, path: string, sni: string, fp: string, alpn: string,
                      transport: string, s: Settings): Fields {
    f.(network := transport, host := host, path := path, sni := sni, fp := fp, alpn := alpn,
       mode := PinnedMode(transport, s))
  }

  lemma ReadHostParams(q: string, host: string, path: string, sni: string, fp: string, alpn: string,
                       transport: string, s: Settings)
    requires '#' !in q && Reading(q).alpn == "" && Reading(q).mode == ""
    ensures var r := HostParams(q, host, path, sni, fp, alpn, transport, s);
      '#' !in r && Reading(r) == PathFields(Reading(q), host, path, sni, fp, alpn, transport, s)
  {
    hide Reading, Put, QuoteAll, QuotePath, QuoteList, WithAlpn, WithFragment, WithMode, PinnedMode;
    var q1 := Put(q, Type, QuoteAll(transport));
    PutAll(q, Type, transport);
    var q2 := Put(q1, Host, QuoteAll(host));
    PutAll(q1, Host, host);
    var q3 := Put(q2, Path, QuotePath(path));
    PutPath(q2, Path, path);
    var q4 := Put(q3, Sni, QuoteAll(sni));
    PutAll(q3, Sni, sni);
    var q5 := Put(q4, Fp, QuoteAll(fp));
    PutAll(q4, Fp, fp);
    ReadAlpn(q5, alpn);
    ReadMode(WithAlpn(q5, alpn), transport, s);
    ReadFragment(WithMode(WithAlpn(q5, alpn), transport, s), s);
  }

  function BaseFields(sec: string): Fields {
    NO_FIELDS.(encryption := "none", security := sec)
  }

  lemma ReadSecurity(sec: string)
    requires RawValue(sec)
    ensures var q := Put(Put("", Encryption, "none"), Security, sec);
      '#' !in q && Reading(q) == BaseFields(sec)
  {
    hide Reading, Put, RawValue;
    Words();
    EmptyQuery();
    PutPlain("", Encryption, "none");
    PutPlain(Put("", Encryption, "none"), Security, sec);
  }

  function IdentityFields(host: string, u: User, s: Settings): Fields {
    BaseFields("reality").(pbk := Or(u.publicKey, s.realityPub), sid := Or(u.shortId, s.realitySid),
                           sni := RealitySni(host, s), spx := Or(u.spiderX, RealitySni(host, s)))
  }

  lemma ReadIdentityParams(q: string, pbk: string, sid: string, sni: string, spx: string)
    requires '#' !in q
    ensures var r := IdentityParams(q, pbk, sid, sni, spx);
      '#' !in r && Reading(r) == Reading(q).(pbk := pbk, sid := sid, sni := sni, spx := spx)
  {
    hide Reading, Put, QuoteAll;
    PutAll(q, Pbk, pbk);
    var q2 := Put(q, Pbk, QuoteAll(pbk));
    PutAll(q2, Sid, sid);
    var q3 := Put(q2, Sid, QuoteAll(sid));
    PutAll(q3, Sni, sni);
    PutAll(Put(q3, Sni, QuoteAll(sni)), Spx, spx);
  }

  lemma ReadRealityIdentity(host: string, u: User, s: Settings)
    ensures '#' !in RealityIdentity(host, u, s)
    ensures Reading(RealityIdentity(host, u, s)) == IdentityFields(host, u, s)
  {
    hide Reading, Put, RawValue, IdentityParams, Or, RealitySni, NO_FIELDS;
    Words();
    ReadSecurity("reality");
    ReadIdentityParams(Put(Put("", Encryption, "none"), Security, "reality"), Or(u.publicKey, s.realityPub),
                       Or(u.shortId, s.realitySid), RealitySni(host, s), Or(u.spiderX, RealitySni(host, s)));
  }

  lemma ReadRealityTail(q: string, fp: string, s: Settings)
    requires '#' !in q && RawValue(fp) && Reading(q).flow == ""
    ensures var r := RealityTail(q, fp, s);
      '#' !in r && Reading(r) == Reading(q).(fp := fp, network := "tcp", flow := FlowFor(s, "tcp", "reality"))
  {
    hide Reading, Put, WithFragment, RawValue;
    Words();
    var flow := FlowFor(s, "tcp", "reality");
    PutPlain(q, Fp, fp);
    PutPlain(Put(q, Fp, fp), Type, "tcp");
    var q6 := Put(Put(q, Fp, fp), Type, "tcp");
    PutPlain(q6, HeaderType, "none");
    var q7 := Put(q6, HeaderType, "none");
    PutPlain(q7, Flow, VISION_FLOW);
    ReadFragment(if flow == "" then q7 else Put(q7, Flow, flow), s);
  }

  lemma ChunkValue(p: map<string, string>, k: Key, chunk: string)
    ensures Get(AddChunk(p, chunk), k) == Get(p, k) || |Get(AddChunk(p, chunk), k)| <= |chunk|
  {
    hide Name, Unquote;
    UnquoteShorter(After(chunk, '='));
  }

  lemma PutLonger(q: string, k: Key, a: string, b: string)
    ensures Put(q, k, a + ['&'] + b) == Put(q, k, a) + ['&'] + b
  {
    hide Name;
  }

  /** With a value that is cut into chunks, the parameter is read as at most one of them. */
  lemma {:induction false} RawValueLength(q: string, k: Key, v: string)
    requires '#' !in v
    ensures var r := Get(Params(Put(q, k, v)), k);
      if '&' in v then |r| < |v| else r == Unquote(v)
    decreases |v|
  {
    hide Name, Put, Unquote, Split, KeyText, AddChunk, ChunkParams, Get;
    if '&' in v {
      var i := LastIndexOf(v, '&');
      var a, b := v[..i], v[i + 1..];
      assert v == a + ['&'] + b;
      PutLonger(q, k, a, b);
      SplitAppend(Put(q, k, a), '&', b);
      ChunkParamsAppend(Split(Put(q, k, a), '&'), b);
      ChunkValue(Params(Put(q, k, a)), k, b);
      RawValueLength(q, k, a);
      UnquoteShorter(a);
    } else {
      NameKeyText(k);
      SetValue(q, k, v);
    }
  }

  lemma SetValue(q: string, k: Key, v: string)
    requires ValueText(v)
    ensures Get(Params(Put(q, k, v)), k) == Unquote(v)
  {
    hide Name, Unquote, Params, With, KeyText;
    NameKeyText(k);
    ParamsWith(q, Name(k), v);
  }

  lemma PutText(q: string, k: Key, v: string)
    ensures Put(q, k, v) == Put(q, k, "") + v
    ensures '#' !in q ==> '#' !in Put(q, k, "")
  {
    hide Name;
    NameHasNoHash(k);
  }

  /** The fragment starts at the first '#', also one inside the value. */
  lemma CutAtHash(q: string, k: Key, v: string, frag: string)
    requires '#' !in q
    ensures Before(Put(q, k, v) + ['#'] + frag, '#') == Put(q, k, Before(v, '#'))
  {
    hide Put, Name;
    PutText(q, k, v);
    PutText(q, k, Before(v, '#'));
    var i := IndexOf(v, '#');
    var w := Put(q, k, "") + v[..i];
    var rest := if i < |v| then v[i + 1..] + ['#'] + frag else frag;
    assert i < |v| ==> v == v[..i] + ['#'] + v[i + 1..];
    assert i == |v| ==> v == v[..i];
    assert Put(q, k, v) + ['#'] + frag == w + ['#'] + rest;
    IndexOfAppend(w, '#', rest);
  }

  /** A value written without quoting at the end of a query is read back, if and only if it holds no
      '&', no '#' and no escape. */
  lemma RawValueExactly(q: string, k: Key, v: string, frag: string)
    requires '#' !in q
    ensures Get(Params(Before(Put(q, k, v) + ['#'] + frag, '#')), k) == v <==> RawValue(v)
  {
    hide Name, Params, Put, Unquote, HasEscape, Get;
    CutAtHash(q, k, v, frag);
    RawValueLength(q, k, Before(v, '#'));
    UnquoteShorter(Before(v, '#'));
    UnquoteExactly(v);
    assert '#' !in v ==> Before(v, '#') == v;
  }

  lemma NameHasNoHash(k: Key)
    ensures '#' !in Name(k)
  {
    hide Name;
    NameKeyText(k);
  }

  lemma ReadTcpPlain(q: string)
    requires '#' !in q
    ensures var r := Put(Put(q, Type, "tcp"), HeaderType, "none");
      '#' !in r && Reading(r) == Reading(q).(network := "tcp")
  {
    hide Reading, Put, RawValue;
    Words();
    PutPlain(q, Type, "tcp");
    PutPlain(Put(q, Type, "tcp"), HeaderType, "none");
  }

  lemma ReadTcpTls(q: string, sni: string, fp: string, alpn: string)
    requires '#' !in q && RawValue(fp) && Reading(q).alpn == ""
    ensures var r := WithAlpn(Put(Put(q, Sni, QuoteAll(sni)), Fp, fp), alpn);
      '#' !in r && Reading(r) == Reading(q).(sni := sni, fp := fp, alpn := alpn)
  {
    hide Reading, Put, QuoteAll, WithAlpn;
    PutAll(q, Sni, sni);
    PutPlain(Put(q, Sni, QuoteAll(sni)), Fp, fp);
    ReadAlpn(Put(Put(q, Sni, QuoteAll(sni)), Fp, fp), alpn);
  }

  lemma ReadGrpcParams(q: string, service: string, sni: string, fp: string)
    requires '#' !in q
    ensures var r := GrpcParams(q, service, sni, fp);
      '#' !in r && Reading(r) == Reading(q).(network := "grpc", service := service, sni := sni, fp := fp)
  {
    hide Reading, Put, QuoteAll, RawValue;
    Words();
    PutPlain(q, Type, "grpc");
    var q1 := Put(q, Type, "grpc");
    PutAll(q1, ServiceName, service);
    var q2 := Put(q1, ServiceName, QuoteAll(service));
    PutAll(q2, Sni, sni);
    PutAll(Put(q2, Sni, QuoteAll(sni)), Fp, fp);
  }
}
