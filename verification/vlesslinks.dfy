/** VLESS links are read back as exactly the connection they were built from. */
module VlessLinks {
  import opened Wrappers
  import opened Text
  import opened Percent
  import opened Keys
  import opened Users
  import opened Links
  import opened Parser
  import opened LinkReading
  import VmessJson

  // ---------------------------------------------------------------- VLESS

  /** The builder writes the fingerprint unquoted on raw-TCP links. */
  predicate RawFingerprint(u: User, s: Settings) {
    SecurityOf(u) == "reality" || (TransportFor(u, s) == "tcp" && SecurityOf(u) == "tls")
  }

  predicate VlessInputs(host: string, u: User, s: Settings) {
    && HostText(host) && CredText(u.uuid) && !HasEscape(u.uuid)
    && (RawFingerprint(u, s) ==> RawValue(FingerprintOf(u, s)))
  }

  /** What a VLESS user's link means: a reference for the reader, written without the link text. */
  function VlessEntry(host: string, port: nat, u: User, s: Settings): Entry {
    var transport := TransportFor(u, s);
    var e := Blank("vless", "TiTaN-" + u.name + "-VLESS-" + Upper(transport), host, port)
             .(user := u.uuid, password := u.uuid, cipher := "none");
    var tls := e.(security := if SecurityOf(u) == "tls" then "tls" else "none",
                  sni := Or(s.sniOverride, host), fp := Or(u.fingerprint, s.defaultFingerprint));
    if SecurityOf(u) == "reality" then
      e.(security := "reality", sni := Or(s.realitySni, Or(s.sniOverride, host)),
         fp := Or(u.fingerprint, s.defaultFingerprint),
         flow := if s.visionEnabled then "xtls-rprx-vision" else "", pbk := Or(u.publicKey, s.realityPub),
         sid := Or(u.shortId, s.realitySid), spx := Or(u.spiderX, Or(s.realitySni, Or(s.sniOverride, host))))
    else if transport == "grpc" then tls.(transport := "grpc", service := "titan")
    else if transport == "tcp" then
      if SecurityOf(u) == "tls" then tls.(alpn := AlpnList(u.alpn)) else e
    else
      tls.(transport := transport, host := host, alpn := AlpnList(u.alpn), mode := PinnedMode(transport, s),
           path := if transport == "ws" then "/vl-ws" else if transport == "xhttp" then "/xhttp" else "/hup")
  }

  lemma NoAlpn()
    ensures AlpnList("") == []
  {
    assert Split("", ',') == [""];
  }

  function SecurityWord(u: User): string {
    if SecurityOf(u) == "tls" then "tls" else "none"
  }

  /** What the query of a VLESS link says, for each transport and security. */
  function VlessFields(host: string, u: User, s: Settings): Fields {
    var t := TransportFor(u, s);
    var base := BaseFields(SecurityWord(u));
    if SecurityOf(u) == "reality" then
      IdentityFields(host, u, s)
      .(fp := FingerprintOf(u, s), network := "tcp", flow := FlowFor(s, "tcp", "reality"))
    else if t == "grpc" then
      base.(network := "grpc", service := GRPC_SERVICE, sni := SniOf(host, s), fp := FingerprintOf(u, s))
    else if t == "ws" || t == "xhttp" || t == "httpupgrade" then
      PathFields(base, host, PathFor("vless", t), SniOf(host, s), FingerprintOf(u, s), u.alpn, t, s)
    else if SecurityOf(u) == "tls" then
      base.(network := "tcp", sni := SniOf(host, s), fp := FingerprintOf(u, s), alpn := u.alpn)
    else base.(network := "tcp")
  }

  lemma ReadVlessQuery(host: string, u: User, s: Settings)
    requires VlessInputs(host, u, s) && Lower(u.protocol) == "vless"
    ensures '#' !in VlessQuery(host, u, s)
    ensures Reading(VlessQuery(host, u, s)) == VlessFields(host, u, s)
  {
    hide Reading, Put, TransportFor, SecurityOf, FingerprintOf, HostText, CredText, SniOf, PathFor, QuoteAll,
      WithAlpn, PinnedMode, HostParams, GrpcParams, RealityIdentity, RealityTail, Lower;
    ServedVless(u, s);
    var t := TransportFor(u, s);
    var sec := SecurityWord(u);
    var q := Put(Put("", Encryption, "none"), Security, sec);
    ReadSecurity(sec);
    if SecurityOf(u) == "reality" {
      ReadRealityIdentity(host, u, s);
      ReadRealityTail(RealityIdentity(host, u, s), FingerprintOf(u, s), s);
    } else if t == "grpc" {
      ReadGrpcParams(q, GRPC_SERVICE, SniOf(host, s), FingerprintOf(u, s));
    } else if t == "tcp" {
      ReadTcpPlain(q);
      if SecurityOf(u) == "tls" {
        ReadTcpTls(Put(Put(q, Type, "tcp"), HeaderType, "none"), SniOf(host, s), FingerprintOf(u, s), u.alpn);
      }
    } else {
      ReadHostParams(q, host, PathFor("vless", t), SniOf(host, s), FingerprintOf(u, s), u.alpn, t, s);
    }
  }

  lemma ServedVless(u: User, s: Settings)
    requires Lower(u.protocol) == "vless"
    ensures TransportFor(u, s) in {"ws", "xhttp", "grpc", "tcp", "httpupgrade"}
  {
  }

  predicate ReadsAs(host: string, port: nat, u: User, s: Settings) {
    var e := VlessEntry(host, port, u, s);
    ParamEntry("vless", e.name, u.uuid, host, port, VlessFields(host, u, s)) == e
  }

  lemma RealityFieldsEntry(host: string, port: nat, u: User, s: Settings)
    requires SecurityOf(u) == "reality"
    ensures ReadsAs(host, port, u, s)
  {
    hide TransportFor, SecurityOf, FlowFor, PathFor, AlpnList, Upper, Lower;
    NoAlpn();
    VisionFlow(s);
  }

  lemma OpenFieldsEntry(host: string, port: nat, u: User, s: Settings)
    requires Lower(u.protocol) == "vless" && SecurityOf(u) != "reality"
    ensures ReadsAs(host, port, u, s)
  {
    hide TransportFor, SecurityOf, FlowFor, AlpnList, Upper, Lower;
    NoAlpn();
    ServedVless(u, s);
  }

  /** The entry those values make is the reference entry. */
  lemma VlessFieldsEntry(host: string, port: nat, u: User, s: Settings)
    requires Lower(u.protocol) == "vless"
    ensures ReadsAs(host, port, u, s)
  {
    hide TransportFor, SecurityOf, Lower, ReadsAs;
    if SecurityOf(u) == "reality" {
      RealityFieldsEntry(host, port, u, s);
    } else {
      OpenFieldsEntry(host, port, u, s);
    }
  }

  /** Reading a VLESS link gives back the user's connection, for every transport and security. */
  lemma VlessRoundTrip(json: VmessJson.Json, host: string, port: nat, u: User, s: Settings)
    requires VlessInputs(host, u, s) && Lower(u.protocol) == "vless"
    ensures ParseLink(json, BuildVless(host, port, u, s)) == Some(VlessEntry(host, port, u, s))
  {
    hide ParseLink, Reading, VlessQuery, VlessFields, Upper, Unquote, QuotePath, Uri, TransportFor, HostText, CredText,
      ParamEntry;
    var name := "TiTaN-" + u.name + "-VLESS-" + Upper(TransportFor(u, s));
    ReadVlessQuery(host, u, s);
    VlessFieldsEntry(host, port, u, s);
    ReadName(name);
    UnquotePlain(u.uuid);
    ReadUri(json, "vless", u.uuid, host, port, VlessQuery(host, u, s), QuotePath(name));
  }
}
