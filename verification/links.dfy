/** Share links (app/links.py): how the panel spells a user's connection as a URI. */
module Links {
  import opened Text
  import opened Percent
  import opened Keys
  import opened Base64
  import opened Users
  import opened SsKeys
  import Decimal
  import VmessJson
  import Utf8

  /** `_transport_for`: the transport a link advertises is always one the server offers. */
  function TransportFor(u: User, s: Settings): string {
    var t := Lower(Or(u.transport, Or(s.defaultTransport, "ws")));
    if t in ServedTransports(Lower(u.protocol)) then t else "ws"
  }

  function SecurityOf(u: User): string {
    Lower(Or(u.security, "tls"))
  }

  function FingerprintOf(u: User, s: Settings): string {
    Or(u.fingerprint, s.defaultFingerprint)
  }

  function SniOf(host: string, s: Settings): string {
    Or(s.sniOverride, host)
  }

  function PathFor(protocol: string, transport: string): string {
    if transport == "ws" then
      if protocol == "vless" then "/vl-ws"
      else if protocol == "vmess" then "/vm-ws"
      else if protocol == "trojan" then "/tr-ws"
      else "/ws"
    else if transport == "xhttp" then "/xhttp"
    else if transport == "httpupgrade" then "/hup"
    else "/ws"
  }

  const GRPC_SERVICE := "titan"

  /** `scheme://body` */
  function Link(scheme: string, body: string): string {
    scheme + "://" + body
  }

  /** `scheme://credential@host:port?query#name` */
  function Uri(scheme: string, cred: string, host: string, port: nat, query: string, name: string): string {
    Link(scheme, cred + "@" + host + ":" + Decimal.Print(port) + "?" + query + "#" + name)
  }

  function WithFragment(q: string, s: Settings): string {
    if s.fragment.None? then q
    else Put(Put(q, FpLen, QuoteAll(s.fragment.value.length)), FpInt, QuoteAll(s.fragment.value.interval))
  }

  function WithAlpn(q: string, alpn: string): string {
    if alpn == "" then q else Put(q, Alpn, QuoteList(alpn))
  }

  function WithMode(q: string, transport: string, s: Settings): string {
    if transport == "xhttp" && s.xhttpMode in PINNED_MODES then Put(q, Mode, QuoteAll(s.xhttpMode)) else q
  }

  /** `_host_params`, appended to `q` */
  function HostParams(q: string, host: string, path: string, sni: string, fp: string, alpn: string,
                      transport: string, s: Settings): string {
    var q1 := Put(q, Type, QuoteAll(transport));
    var q2 := Put(q1, Host, QuoteAll(host));
    var q3 := Put(q2, Path, QuotePath(path));
    var q4 := Put(q3, Sni, QuoteAll(sni));
    var q5 := WithAlpn(Put(q4, Fp, QuoteAll(fp)), alpn);
    WithFragment(WithMode(q5, transport, s), s)
  }

  /** `key=value` */
  function Pair(k: Key, value: string): string {
    Name(k) + "=" + value
  }

  lemma PutJoin(parts: seq<string>, k: Key, value: string)
    requires parts != [] ==> Join(parts, '&') != ""
    ensures Put(Join(parts, '&'), k, value) == Join(parts + [Pair(k, value)], '&')
    ensures Join(parts + [Pair(k, value)], '&') != ""
  {
    hide Name;
    if parts == [] {
      assert parts + [Pair(k, value)] == [Pair(k, value)];
    } else {
      JoinAppend(parts, [Pair(k, value)], '&');
      assert Join(parts, '&') + "&" + Name(k) + "=" + value == Join(parts, '&') + ['&'] + Pair(k, value);
    }
  }

  /** `_host_params` as it is written: a list of parts that grows, joined by '&'. */
  method HostParamsText(host: string, path: string, sni: string, fp: string, alpn: string, transport: string,
                        s: Settings)
    returns (text: string)
    ensures text == HostParams("", host, path, sni, fp, alpn, transport, s)
  {
    hide Put, Name, QuoteAll, QuotePath, QuoteList, Join, Pair;
    var parts: seq<string> := [];
    JoinNothing();
    parts := AddPart(parts, Type, QuoteAll(transport));
    parts := AddPart(parts, Host, QuoteAll(host));
    parts := AddPart(parts, Path, QuotePath(path));
    parts := AddPart(parts, Sni, QuoteAll(sni));
    parts := AddPart(parts, Fp, QuoteAll(fp));
    if alpn != "" {
      parts := AddPart(parts, Alpn, QuoteList(alpn));
    }
    if transport == "xhttp" && s.xhttpMode in PINNED_MODES {
      parts := AddPart(parts, Mode, QuoteAll(s.xhttpMode));
    }
    if s.fragment.Some? {
      parts := AddPart(parts, FpLen, QuoteAll(s.fragment.value.length));
      parts := AddPart(parts, FpInt, QuoteAll(s.fragment.value.interval));
    }
    text := Join(parts, '&');
  }

  /** A query with more parameters behind it. */
  function Extended(q: string, more: string): string {
    if more == "" then q else q + "&" + more
  }

  lemma PutExtended(q: string, more: string, k: Key, value: string)
    requires q != ""
    ensures Put(Extended(q, more), k, value) == Extended(q, Put(more, k, value))
    ensures Put(more, k, value) != ""
  {
    hide Name;
    var pair := Name(k) + "=" + value;
    if more == "" {
      assert q + "&" + Name(k) + "=" + value == q + "&" + pair;
    } else {
      assert q + "&" + more + "&" + Name(k) + "=" + value == q + "&" + (more + "&" + Name(k) + "=" + value);
    }
  }

  /** The f-string around `_host_params`: its text follows the query so far behind an '&'. */
  lemma HostParamsExtend(q: string, host: string, path: string, sni: string, fp: string, alpn: string,
                         transport: string, s: Settings)
    requires q != ""
    ensures HostParams(q, host, path, sni, fp, alpn, transport, s) ==
      Extended(q, HostParams("", host, path, sni, fp, alpn, transport, s))
  {
    hide Put, QuoteAll, QuotePath, QuoteList, Extended;
    var e1 := Put("", Type, QuoteAll(transport));
    var e2 := Put(e1, Host, QuoteAll(host));
    var e3 := Put(e2, Path, QuotePath(path));
    var e4 := Put(e3, Sni, QuoteAll(sni));
    var e5 := Put(e4, Fp, QuoteAll(fp));
    var e6 := WithAlpn(e5, alpn);
    var e7 := WithMode(e6, transport, s);
    ExtendedByNothing(q);
    PutExtended(q, "", Type, QuoteAll(transport));
    PutExtended(q, e1, Host, QuoteAll(host));
    PutExtended(q, e2, Path, QuotePath(path));
    PutExtended(q, e3, Sni, QuoteAll(sni));
    PutExtended(q, e4, Fp, QuoteAll(fp));
    PutExtended(q, e5, Alpn, QuoteList(alpn));
    PutExtended(q, e6, Mode, QuoteAll(s.xhttpMode));
    if s.fragment.Some? {
      var f := s.fragment.value;
      PutExtended(q, e7, FpLen, QuoteAll(f.length));
      PutExtended(q, Put(e7, FpLen, QuoteAll(f.length)), FpInt, QuoteAll(f.interval));
    }
  }

  lemma ExtendedByNothing(q: string)
    ensures Extended(q, "") == q
  {
  }

  lemma JoinNothing()
    ensures Join([], '&') == ""
  {
  }

  /** `parts.append(f"{key}={value}")` */
  method AddPart(parts: seq<string>, k: Key, value: string) returns (more: seq<string>)
    requires parts != [] ==> Join(parts, '&') != ""
    ensures more == parts + [Pair(k, value)]
    ensures Join(more, '&') == Put(Join(parts, '&'), k, value) && Join(more, '&') != ""
  {
    PutJoin(parts, k, value);
    more := parts + [Pair(k, value)];
  }

  function GrpcParams(q: string, service: string, sni: string, fp: string): string {
    var q1 := Put(q, Type, "grpc");
    var q2 := Put(q1, ServiceName, QuoteAll(service));
    Put(Put(q2, Sni, QuoteAll(sni)), Fp, QuoteAll(fp))
  }

  function RealitySni(host: string, s: Settings): string {
    Or(s.realitySni, SniOf(host, s))
  }

  function IdentityParams(q: string, pbk: string, sid: string, sni: string, spx: string): string {
    var q2 := Put(Put(q, Pbk, QuoteAll(pbk)), Sid, QuoteAll(sid));
    Put(Put(q2, Sni, QuoteAll(sni)), Spx, QuoteAll(spx))
  }

  /** The part of a Reality query that names the server's key. */
  function RealityIdentity(host: string, u: User, s: Settings): string {
    IdentityParams(Put(Put("", Encryption, "none"), Security, "reality"), Or(u.publicKey, s.realityPub),
                   Or(u.shortId, s.realitySid), RealitySni(host, s), Or(u.spiderX, RealitySni(host, s)))
  }

  function RealityTail(q: string, fp: string, s: Settings): string {
    var flow := FlowFor(s, "tcp", "reality");
    var q6 := Put(Put(q, Fp, fp), Type, "tcp");
    var q7 := Put(q6, HeaderType, "none");
    WithFragment(if flow == "" then q7 else Put(q7, Flow, flow), s)
  }

  function RealityParams(host: string, u: User, s: Settings): string {
    RealityTail(RealityIdentity(host, u, s), FingerprintOf(u, s), s)
  }

  function VlessQuery(host: string, u: User, s: Settings): string {
    var transport := TransportFor(u, s);
    var security := SecurityOf(u);
    var sni := SniOf(host, s);
    var fp := FingerprintOf(u, s);
    if security == "reality" then RealityParams(host, u, s)
    else
      var sec := if security == "tls" then "tls" else "none";
      var q := Put(Put("", Encryption, "none"), Security, sec);
      if transport == "grpc" then GrpcParams(q, GRPC_SERVICE, sni, fp)
      else if transport == "ws" || transport == "xhttp" || transport == "httpupgrade" then
        HostParams(q, host, PathFor("vless", transport), sni, fp, u.alpn, transport, s)
      else
        var q1 := Put(Put(q, Type, "tcp"), HeaderType, "none");
        if security == "tls" then WithAlpn(Put(Put(q1, Sni, QuoteAll(sni)), Fp, fp), u.alpn) else q1
  }

  function BuildVless(host: string, port: nat, u: User, s: Settings): string {
    Uri("vless", u.uuid, host, port, VlessQuery(host, u, s),
        QuotePath("TiTaN-" + u.name + "-VLESS-" + Upper(TransportFor(u, s))))
  }

  function WsParams(q: string, host: string, path: string): string {
    Put(Put(Put(q, Type, "ws"), Host, QuoteAll(host)), Path, QuotePath(path))
  }

  function TlsParams(q: string, sni: string, alpn: string, fp: string): string {
    Put(Put(Put(q, Sni, QuoteAll(sni)), Alpn, QuoteList(alpn)), Fp, fp)
  }

  function TrojanQuery(host: string, u: User, s: Settings): string {
    var q := Put("", Security, "tls");
    TlsParams(if TransportFor(u, s) == "tcp" then q else WsParams(q, host, "/tr-ws"),
              SniOf(host, s), u.alpn, FingerprintOf(u, s))
  }

  function BuildTrojan(host: string, port: nat, u: User, s: Settings): string {
    Uri("trojan", QuoteAll(u.uuid), host, port, TrojanQuery(host, u, s),
        QuotePath("TiTaN-" + u.name + "-Trojan-" + Upper(TransportFor(u, s))))
  }

  /** The method a Shadowsocks link names; unknown ones become the default. */
  function SsCipher(u: User, s: Settings): string {
    var m := Lower(Or(u.ssMethod, Or(s.ssMethod, DEFAULT_SS_METHOD)));
    if m in SS_METHODS then m else DEFAULT_SS_METHOD
  }

  function BuildSs(sha: Hash, host: string, port: nat, u: User, s: Settings): string {
    var cipher := SsCipher(u, s);
    var key := PskLink(sha, u.uuid, cipher);
    var head := if cipher in SS_2022_METHODS then cipher + ":" + key
                else EncodeUrlNoPad(Utf8.Encode(cipher + ":" + key));
    Link("ss", head + "@" + host + ":" + Decimal.Print(port) + "#" + QuotePath("TiTaN-" + u.name + "-SS"))
  }

  function VmessNet(u: User, s: Settings): string {
    var t := TransportFor(u, s);
    if t in {"ws", "xhttp", "grpc", "httpupgrade"} then t else "tcp"
  }

  function RecordOf(ps: string, add: string, port: string, id: string, net: string, path: string, tls: string,
                    sni: string, alpn: string, fp: string): VmessJson.Object {
    map[
      VmessJson.V := "2", VmessJson.Ps := ps, VmessJson.Add := add, VmessJson.Port := port, VmessJson.Id := id,
      VmessJson.Aid := "0", VmessJson.Scy := "auto", VmessJson.Net := net, VmessJson.Type := "none",
      VmessJson.Host := add, VmessJson.Path := path, VmessJson.Tls := tls, VmessJson.Sni := sni,
      VmessJson.Alpn := alpn, VmessJson.Fp := fp]
  }

  /** The record a vmess link carries. */
  function VmessRecord(host: string, port: nat, u: User, s: Settings): VmessJson.Object {
    var t := TransportFor(u, s);
    var net := VmessNet(u, s);
    var path := if t == "ws" then PathFor("vmess", "ws")
                else if t == "xhttp" then PathFor("vmess", "xhttp")
                else if t == "httpupgrade" then PathFor("vmess", "httpupgrade")
                else if t == "grpc" then GRPC_SERVICE
                else "";
    RecordOf("TiTaN-" + u.name + "-VMess-" + Upper(net), host, Decimal.Print(port), u.uuid, net, path,
             if SecurityOf(u) == "tls" then "tls" else "none", SniOf(host, s), u.alpn, FingerprintOf(u, s))
  }

  /** `vm["path"] = …` */
  lemma RecordPath(ps: string, add: string, port: string, id: string, net: string, path: string, tls: string,
                   sni: string, alpn: string, fp: string, other: string)
    ensures RecordOf(ps, add, port, id, net, other, tls, sni, alpn, fp)[VmessJson.Path := path] ==
      RecordOf(ps, add, port, id, net, path, tls, sni, alpn, fp)
  {
  }

  lemma RecordConstants(ps: string, add: string, port: string, id: string, net: string, path: string, tls: string,
                        sni: string, alpn: string, fp: string)
    ensures var r := RecordOf(ps, add, port, id, net, path, tls, sni, alpn, fp);
      && VmessJson.V in r && VmessJson.Aid in r && VmessJson.Type in r
      && r[VmessJson.V] == "2" && r[VmessJson.Aid] == "0" && r[VmessJson.Type] == "none"
  {
  }

  /** The record as `build_vmess_link` makes it: the path is patched in for three transports. */
  method VmessDict(host: string, port: nat, u: User, s: Settings) returns (vm: VmessJson.Object)
    ensures vm == VmessRecord(host, port, u, s)
    ensures VmessJson.V in vm && VmessJson.Aid in vm && VmessJson.Type in vm
    ensures vm[VmessJson.V] == "2" && vm[VmessJson.Aid] == "0" && vm[VmessJson.Type] == "none"
  {
    hide RecordOf, TransportFor, VmessNet, Upper, Decimal.Print, SniOf, FingerprintOf, SecurityOf, PathFor;
    var t := TransportFor(u, s);
    var net := VmessNet(u, s);
    var name := "TiTaN-" + u.name + "-VMess-" + Upper(net);
    var tls := if SecurityOf(u) == "tls" then "tls" else "none";
    var path := if t == "ws" then PathFor("vmess", "ws") else "";
    var sni, fp := SniOf(host, s), FingerprintOf(u, s);
    vm := RecordOf(name, host, Decimal.Print(port), u.uuid, net, path, tls, sni, u.alpn, fp);
    RecordConstants(name, host, Decimal.Print(port), u.uuid, net, path, tls, sni, u.alpn, fp);
    if t == "xhttp" {
      RecordPath(name, host, Decimal.Print(port), u.uuid, net, PathFor("vmess", "xhttp"), tls, sni, u.alpn, fp, path);
      vm := vm[VmessJson.Path := PathFor("vmess", "xhttp")];
    }
    if t == "httpupgrade" {
      RecordPath(name, host, Decimal.Print(port), u.uuid, net, PathFor("vmess", "httpupgrade"), tls, sni, u.alpn, fp,
                 path);
      vm := vm[VmessJson.Path := PathFor("vmess", "httpupgrade")];
    }
    if t == "grpc" {
      RecordPath(name, host, Decimal.Print(port), u.uuid, net, GRPC_SERVICE, tls, sni, u.alpn, fp, path);
      vm := vm[VmessJson.Path := GRPC_SERVICE];
    }
  }

  function BuildVmess(json: VmessJson.Json, host: string, port: nat, u: User, s: Settings): string {
    Link("vmess", Encode64(Utf8.Encode(json.dumps(VmessRecord(host, port, u, s)))))
  }
}
