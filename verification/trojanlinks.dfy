/** Trojan links are read back as the connection they were built from. */
module TrojanLinks {
  import opened Wrappers
  import opened Text
  import opened Percent
  import opened Keys
  import opened Users
  import opened Links
  import opened Parser
  import opened LinkReading
  import VmessJson

  /** What a Trojan user's link means. */
  function TrojanEntry(host: string, port: nat, u: User, s: Settings): Entry {
    var transport := TransportFor(u, s);
    var e := Blank("trojan", "TiTaN-" + u.name + "-Trojan-" + Upper(transport), host, port)
             .(user := u.uuid, password := u.uuid, security := "tls", sni := Or(s.sniOverride, host),
               alpn := AlpnList(u.alpn), fp := Or(u.fingerprint, s.defaultFingerprint));
    if transport == "tcp" then e else e.(transport := "ws", host := host, path := "/tr-ws")
  }

  function TrojanFields(host: string, u: User, s: Settings): Fields {
    var f := NO_FIELDS.(security := "tls", sni := SniOf(host, s), alpn := u.alpn, fp := FingerprintOf(u, s));
    if TransportFor(u, s) == "tcp" then f else f.(network := "ws", host := host, path := "/tr-ws")
  }

  lemma ReadTls()
    ensures var q := Put("", Security, "tls");
      '#' !in q && Reading(q) == NO_FIELDS.(security := "tls")
  {
    hide Reading, Put, RawValue;
    Words();
    EmptyQuery();
    PutPlain("", Security, "tls");
  }

  lemma ReadTlsParams(q: string, sni: string, alpn: string, fp: string)
    requires '#' !in q && RawValue(fp)
    ensures var r := TlsParams(q, sni, alpn, fp);
      '#' !in r && Reading(r) == Reading(q).(sni := sni, alpn := alpn, fp := fp)
  {
    hide Reading, Put, QuoteAll, QuoteList, RawValue;
    PutAll(q, Sni, sni);
    var q1 := Put(q, Sni, QuoteAll(sni));
    PutList(q1, Alpn, alpn);
    PutPlain(Put(q1, Alpn, QuoteList(alpn)), Fp, fp);
  }

  lemma ReadWsParams(q: string, host: string, path: string)
    requires '#' !in q
    ensures var r := WsParams(q, host, path);
      '#' !in r && Reading(r) == Reading(q).(network := "ws", host := host, path := path)
  {
    hide Reading, Put, QuoteAll, QuotePath, RawValue;
    Words();
    PutPlain(q, Type, "ws");
    var q1 := Put(q, Type, "ws");
    PutAll(q1, Host, host);
    PutPath(Put(q1, Host, QuoteAll(host)), Path, path);
  }

  lemma ReadTrojanQuery(host: string, u: User, s: Settings)
    requires RawValue(FingerprintOf(u, s))
    ensures '#' !in TrojanQuery(host, u, s)
    ensures Reading(TrojanQuery(host, u, s)) == TrojanFields(host, u, s)
  {
    hide Reading, Put, TransportFor, FingerprintOf, SniOf, RawValue, TlsParams, WsParams;
    ReadTls();
    var q := Put("", Security, "tls");
    ReadWsParams(q, host, "/tr-ws");
    ReadTlsParams(if TransportFor(u, s) == "tcp" then q else WsParams(q, host, "/tr-ws"),
                  SniOf(host, s), u.alpn, FingerprintOf(u, s));
  }

  lemma TrojanFieldsEntry(host: string, port: nat, u: User, s: Settings)
    ensures var e := TrojanEntry(host, port, u, s);
      ParamEntry("trojan", e.name, u.uuid, host, port, TrojanFields(host, u, s)) == e
  {
    hide TransportFor, AlpnList, Upper;
  }

  /** The password may be any text; only the fingerprint is written without quoting. */
  lemma TrojanRoundTrip(json: VmessJson.Json, host: string, port: nat, u: User, s: Settings)
    requires HostText(host) && RawValue(FingerprintOf(u, s))
    ensures ParseLink(json, BuildTrojan(host, port, u, s)) == Some(TrojanEntry(host, port, u, s))
  {
    hide ParseLink, Reading, TrojanQuery, TrojanFields, Upper, Unquote, QuotePath, QuoteAll, Uri, TransportFor,
      HostText,
      CredText, ParamEntry, RawValue, FingerprintOf, SniOf;
    var name := "TiTaN-" + u.name + "-Trojan-" + Upper(TransportFor(u, s));
    ReadTrojanQuery(host, u, s);
    TrojanFieldsEntry(host, port, u, s);
    ReadName(name);
    QuotedCred(u.uuid);
    ReadUri(json, "trojan", QuoteAll(u.uuid), host, port, TrojanQuery(host, u, s), QuotePath(name));
  }
}
