/** VMess links are read back as the record they carry, for any JSON codec that inverts itself. */
module VmessLinks {
  import opened Wrappers
  import opened Text
  import opened Percent
  import opened Base64
  import opened Users
  import opened Links
  import opened Parser
  import opened LinkReading
  import VmessJson
  import Decimal
  import Utf8

  ghost predicate Invertible(json: VmessJson.Json) {
    forall m :: json.loads(json.dumps(m)) == Some(m)
  }

  /** What a VMess user's link means. The record has no field of its own for the gRPC service: it
      travels as the path. */
  function VmessLinkEntry(host: string, port: nat, u: User, s: Settings): Entry {
    var t := TransportFor(u, s);
    var net := if t == "ws" || t == "xhttp" || t == "grpc" || t == "httpupgrade" then t else "tcp";
    Blank("vmess", "TiTaN-" + u.name + "-VMess-" + Upper(net), host, port)
    .(user := u.uuid, cipher := "auto", transport := net,
      security := if SecurityOf(u) == "tls" then "tls" else "none",
      path := if net == "ws" then "/vm-ws" else if net == "xhttp" then "/xhttp"
              else if net == "httpupgrade" then "/hup" else if net == "grpc" then "titan" else "",
      host := host, sni := Or(s.sniOverride, host), fp := Or(u.fingerprint, s.defaultFingerprint),
       alpn := AlpnList(u.alpn))
  }

  lemma NetTransport(u: User, s: Settings)
    ensures VmessNet(u, s) in {"ws", "xhttp", "grpc", "httpupgrade", "tcp"}
    ensures VmessNet(u, s) != "tcp" ==> VmessNet(u, s) == TransportFor(u, s)
    ensures VmessNet(u, s) == "tcp" ==> TransportFor(u, s) !in {"ws", "xhttp", "grpc", "httpupgrade"}
  {
    hide TransportFor;
  }

  /** A printed port has no ':' in it. */
  lemma ReadPlainPort(port: nat)
    ensures PortOf(Decimal.Print(port)) == port
  {
    hide Decimal.Print, Decimal.ParseInt;
    PortText(port);
    ReadPort(port);
  }

  lemma RecordFields(ps: string, add: string, port: string, id: string, net: string, path: string, tls: string,
                     sni: string, alpn: string, fp: string)
    ensures var r := RecordOf(ps, add, port, id, net, path, tls, sni, alpn, fp);
      && VmessJson.Port in r && r[VmessJson.Port] == port
      && VmessJson.Field(r, VmessJson.Ps) == ps && VmessJson.Field(r, VmessJson.Add) == add
      && VmessJson.Field(r, VmessJson.Id) == id && VmessJson.Field(r, VmessJson.Scy) == "auto"
      && VmessJson.Field(r, VmessJson.Net) == net && VmessJson.Field(r, VmessJson.Host) == add
  {
  }

  lemma RecordTlsFields(ps: string, add: string, port: string, id: string, net: string, path: string, tls: string,
                        sni: string, alpn: string, fp: string)
    ensures var r := RecordOf(ps, add, port, id, net, path, tls, sni, alpn, fp);
      && VmessJson.Field(r, VmessJson.Path) == path && VmessJson.Field(r, VmessJson.Tls) == tls
      && VmessJson.Field(r, VmessJson.Sni) == sni && VmessJson.Field(r, VmessJson.Alpn) == alpn
      && VmessJson.Field(r, VmessJson.Fp) == fp && VmessJson.Field(r, VmessJson.ServiceName) == ""
  {
  }

  /** The reader's view of a record with the given members. */
  lemma ReadMembers(ps: string, add: string, port: string, id: string, net: string, path: string, tls: string,
                    sni: string, alpn: string, fp: string, name: string)
    requires net in {"ws", "grpc", "httpupgrade", "xhttp", "tcp"} && ps != ""
    ensures var r := RecordOf(ps, add, port, id, net, path, tls, sni, alpn, fp);
      && r != map[]
      && VmessEntry(r, name) ==
           Blank("vmess", ps, add, PortOf(port))
           .(user := id, cipher := "auto", transport := net, security := if tls == "tls" then "tls" else "none",
             path := path, host := add, sni := sni, fp := fp, alpn := AlpnList(alpn))
  {
    hide RecordOf, VmessJson.Field, AlpnList, PortOf;
    RecordFields(ps, add, port, id, net, path, tls, sni, alpn, fp);
    RecordTlsFields(ps, add, port, id, net, path, tls, sni, alpn, fp);
  }

  /** The reader makes the reference entry out of the builder's record. */
  lemma RecordEntry(host: string, port: nat, u: User, s: Settings, name: string)
    ensures VmessRecord(host, port, u, s) != map[]
    ensures VmessEntry(VmessRecord(host, port, u, s), name) == VmessLinkEntry(host, port, u, s)
  {
    hide TransportFor, VmessNet, SecurityOf, AlpnList, Upper, PortOf, Decimal.Print, VmessEntry, RecordOf;
    var net := VmessNet(u, s);
    NetTransport(u, s);
    ReadPlainPort(port);
    ReadMembers("TiTaN-" + u.name + "-VMess-" + Upper(net), host, Decimal.Print(port), u.uuid, net,
                if net == "tcp" then "" else if net == "grpc" then GRPC_SERVICE else PathFor("vmess", net),
                if SecurityOf(u) == "tls" then "tls" else "none", SniOf(host, s), u.alpn, FingerprintOf(u, s), name);
  }

  /** A padded encoding needs no more padding and none of the URI's separators. */
  lemma EncodedBody(b: seq<Utf8.Byte>)
    ensures var body := Encode64(b);
      && '#' !in body && '?' !in body && (body == "" || !IsSpace(body[|body| - 1]))
      && Padding(|body|) == ""
  {
    hide Body;
    var body := Encode64(b);
    PaddingText(|Body(b)|);
    forall i | 0 <= i < |body|
      ensures body[i] != '#' && body[i] != '?' && !IsSpace(body[i])
    {
      if i < |Body(b)| {
        assert SymValue(Body(b)[i]) < 64;
      } else {
        assert body[i] == Padding(|Body(b)|)[i - |Body(b)|];
      }
    }
  }

  lemma PaddingText(n: nat)
    ensures var p := Padding(n);
      |p| == (4 - n % 4) % 4 && forall i :: 0 <= i < |p| ==> p[i] == '='
  {
    EqualsText((4 - n % 4) % 4);
  }

  lemma {:induction false} EqualsText(n: nat)
    ensures |Equals(n)| == n && forall i :: 0 <= i < n ==> Equals(n)[i] == '='
  {
    if n > 0 {
      EqualsText(n - 1);
    }
  }

  lemma ReadRecord(json: VmessJson.Json, text: string, obj: VmessJson.Object)
    requires json.loads(text) == Some(obj)
    ensures B64Json(json, Encode64(Utf8.Encode(text))) == obj
  {
    hide Encode64, Decode64, Utf8.Encode, Utf8.Decode, Padding;
    var body := Encode64(Utf8.Encode(text));
    EncodedBody(Utf8.Encode(text));
    assert body + "" == body;
    DecodeEncode64(Utf8.Encode(text));
    Utf8.DecodeEncode(text, "");
  }

  lemma ReadVmessBody(json: VmessJson.Json, body: string)
    requires '#' !in body && '?' !in body
    ensures ParseBody(json, "vmess", body) ==
      if B64Json(json, body) == map[] then None
      else Some(VmessEntry(B64Json(json, body), Or(Unquote(""), "TiTaN")))
  {
    hide B64Json, VmessEntry, Unquote;
    assert body[..|body|] == body;
  }

  /** Every VMess link is read back as the user's connection, whatever the host, name and port are. */
  lemma VmessRoundTrip(json: VmessJson.Json, host: string, port: nat, u: User, s: Settings)
    requires Invertible(json)
    ensures ParseLink(json, BuildVmess(json, host, port, u, s)) == Some(VmessLinkEntry(host, port, u, s))
  {
    hide VmessRecord, VmessEntry, VmessLinkEntry, B64Json, ParseBody, Encode64, Utf8.Encode, Unquote, SchemeOf, Strip,
      Find,
      Lower, IsSpace;
    var obj := VmessRecord(host, port, u, s);
    var text := json.dumps(obj);
    assert json.loads(text) == Some(obj);
    var body := Encode64(Utf8.Encode(text));
    EncodedBody(Utf8.Encode(text));
    ReadRecord(json, text, obj);
    RecordEntry(host, port, u, s, Or(Unquote(""), "TiTaN"));
    ReadVmessBody(json, body);
    SchemeText("vmess");
    FindScheme("vmess", body);
  }

  lemma FromUrlPadded(blob: string, n: nat)
    ensures FromUrl(blob) + Padding(n) == FromUrl(blob + Padding(n))
  {
    PaddingText(n);
  }

  /** A record in the URL alphabet without padding is read too, unless its text as it stands already
      decodes to one. */
  lemma UrlRecord(json: VmessJson.Json, obj: VmessJson.Object)
    requires Invertible(json)
    ensures var blob := EncodeUrlNoPad(Utf8.Encode(json.dumps(obj)));
      JsonOf(json, blob + Padding(|blob|)) == None ==> B64Json(json, blob) == obj
  {
    hide EncodeUrlNoPad, Padding, Decode64, FromUrl, Utf8.Encode, Utf8.Decode;
    var bytes := Utf8.Encode(json.dumps(obj));
    var blob := EncodeUrlNoPad(bytes);
    DecodeUrlNoPad(bytes);
    Utf8.DecodeEncode(json.dumps(obj), "");
    FromUrlPadded(blob, |blob|);
  }
}
