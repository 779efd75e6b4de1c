/** Share links letter by letter: the parameter names and their order, as a client app sees them. */
module LinkTexts {
  import opened Text
  import opened Percent
  import opened Keys
  import opened Users
  import opened Links
  import ClientLinks

  lemma PutNext(q: string, k: Key, value: string, name: string)
    requires q != "" && name == "&" + Name(k) + "="
    ensures Put(q, k, value) == q + name + value
  {
    hide Name;
  }

  /** How the parameters are spelled. */
  lemma Spelling()
    ensures "&" + Name(Type) + "=" == "&type=" && "&" + Name(HeaderType) + "=" == "&headerType="
    ensures "&" + Name(Host) + "=" == "&host=" && "&" + Name(Path) + "=" == "&path="
    ensures "&" + Name(Sni) + "=" == "&sni=" && "&" + Name(Fp) + "=" == "&fp="
    ensures "&" + Name(Alpn) + "=" == "&alpn=" && "&" + Name(Mode) + "=" == "&mode="
    ensures "&" + Name(ServiceName) + "=" == "&serviceName=" && "&" + Name(Flow) + "=" == "&flow="
    ensures "&" + Name(FpLen) + "=" == "&fp_len=" && "&" + Name(FpInt) + "=" == "&fp_int="
    ensures "&" + Name(Pbk) + "=" == "&pbk=" && "&" + Name(Sid) + "=" == "&sid=" && "&" + Name(Spx) + "=" == "&spx="
  {
  }

  lemma TlsHead()
    ensures Put(Put("", Encryption, "none"), Security, "tls") == "encryption=none&security=tls"
  {
  }

  /** A VLESS link over XHTTP, with everything such a link can carry. */
  lemma VlessXhttpText(host: string, u: User, s: Settings)
    requires TransportFor(u, s) == "xhttp" && SecurityOf(u) == "tls" && u.alpn != ""
    requires s.xhttpMode in PINNED_MODES && s.fragment.Some?
    ensures VlessQuery(host, u, s) ==
      "encryption=none&security=tls" + "&type=" + QuoteAll("xhttp") + "&host=" + QuoteAll(host) +
       "&path=" + QuotePath("/xhttp") + "&sni=" + QuoteAll(Or(s.sniOverride, host)) +
       "&fp=" + QuoteAll(Or(u.fingerprint, s.defaultFingerprint)) + "&alpn=" + QuoteList(u.alpn) +
       "&mode=" + QuoteAll(s.xhttpMode) + "&fp_len=" + QuoteAll(s.fragment.value.length) +
       "&fp_int=" + QuoteAll(s.fragment.value.interval)
  {
    hide Put, Name, QuoteAll, QuotePath, QuoteList, Upper, TransportFor, SecurityOf, PINNED_MODES;
    Spelling();
    TlsHead();
    var q0 := "encryption=none&security=tls";
    var q1 := q0 + "&type=" + QuoteAll("xhttp");
    PutNext(q0, Type, QuoteAll("xhttp"), "&type=");
    var q2 := q1 + "&host=" + QuoteAll(host);
    PutNext(q1, Host, QuoteAll(host), "&host=");
    var q3 := q2 + "&path=" + QuotePath("/xhttp");
    PutNext(q2, Path, QuotePath("/xhttp"), "&path=");
    var q4 := q3 + "&sni=" + QuoteAll(SniOf(host, s));
    PutNext(q3, Sni, QuoteAll(SniOf(host, s)), "&sni=");
    var q5 := q4 + "&fp=" + QuoteAll(FingerprintOf(u, s));
    PutNext(q4, Fp, QuoteAll(FingerprintOf(u, s)), "&fp=");
    var q6 := q5 + "&alpn=" + QuoteList(u.alpn);
    PutNext(q5, Alpn, QuoteList(u.alpn), "&alpn=");
    var q7 := q6 + "&mode=" + QuoteAll(s.xhttpMode);
    PutNext(q6, Mode, QuoteAll(s.xhttpMode), "&mode=");
    var f := s.fragment.value;
    var q8 := q7 + "&fp_len=" + QuoteAll(f.length);
    PutNext(q7, FpLen, QuoteAll(f.length), "&fp_len=");
    PutNext(q8, FpInt, QuoteAll(f.interval), "&fp_int=");
  }

  /** A Reality link. */
  lemma VlessRealityText(host: string, u: User, s: Settings)
    requires SecurityOf(u) == "reality" && s.fragment.None?
    ensures var sni := Or(s.realitySni, Or(s.sniOverride, host));
      VlessQuery(host, u, s) ==
      "encryption=none&security=reality" + "&pbk=" + QuoteAll(Or(u.publicKey, s.realityPub)) +
       "&sid=" + QuoteAll(Or(u.shortId, s.realitySid)) + "&sni=" + QuoteAll(sni) +
       "&spx=" + QuoteAll(Or(u.spiderX, sni)) + "&fp=" + Or(u.fingerprint, s.defaultFingerprint) +
       "&type=" + "tcp" + "&headerType=" + "none" +
       if s.visionEnabled then "&flow=" + "xtls-rprx-vision" else ""
  {
    hide Put, Name, QuoteAll, QuotePath, Upper, TransportFor, SecurityOf, FlowFor;
    Spelling();
    RealityHead();
    VisionFlow(s);
    var sni := RealitySni(host, s);
    var pbk, sid, spx := Or(u.publicKey, s.realityPub), Or(u.shortId, s.realitySid), Or(u.spiderX, sni);
    var q0 := "encryption=none&security=reality";
    var q1 := q0 + "&pbk=" + QuoteAll(pbk);
    PutNext(q0, Pbk, QuoteAll(pbk), "&pbk=");
    var q2 := q1 + "&sid=" + QuoteAll(sid);
    PutNext(q1, Sid, QuoteAll(sid), "&sid=");
    var q3 := q2 + "&sni=" + QuoteAll(sni);
    PutNext(q2, Sni, QuoteAll(sni), "&sni=");
    var q4 := q3 + "&spx=" + QuoteAll(spx);
    PutNext(q3, Spx, QuoteAll(spx), "&spx=");
    var q5 := q4 + "&fp=" + FingerprintOf(u, s);
    PutNext(q4, Fp, FingerprintOf(u, s), "&fp=");
    var q6 := q5 + "&type=" + "tcp";
    PutNext(q5, Type, "tcp", "&type=");
    var q7 := q6 + "&headerType=" + "none";
    PutNext(q6, HeaderType, "none", "&headerType=");
    PutNext(q7, Flow, "xtls-rprx-vision", "&flow=");
  }

  lemma RealityHead()
    ensures Put(Put("", Encryption, "none"), Security, "reality") == "encryption=none&security=reality"
  {
  }

  /** A VLESS link over gRPC. */
  lemma VlessGrpcText(host: string, u: User, s: Settings)
    requires TransportFor(u, s) == "grpc" && SecurityOf(u) == "tls"
    ensures VlessQuery(host, u, s) ==
      "encryption=none&security=tls" + "&type=" + "grpc" + "&serviceName=" + QuoteAll("titan") +
       "&sni=" + QuoteAll(Or(s.sniOverride, host)) + "&fp=" + QuoteAll(Or(u.fingerprint, s.defaultFingerprint))
  {
    hide Put, Name, QuoteAll, QuotePath, Upper, TransportFor, SecurityOf;
    Spelling();
    TlsHead();
    var q0 := "encryption=none&security=tls";
    var q1 := q0 + "&type=" + "grpc";
    PutNext(q0, Type, "grpc", "&type=");
    var q2 := q1 + "&serviceName=" + QuoteAll("titan");
    PutNext(q1, ServiceName, QuoteAll("titan"), "&serviceName=");
    var q3 := q2 + "&sni=" + QuoteAll(SniOf(host, s));
    PutNext(q2, Sni, QuoteAll(SniOf(host, s)), "&sni=");
    PutNext(q3, Fp, QuoteAll(FingerprintOf(u, s)), "&fp=");
  }

  lemma TrojanHead()
    ensures Put("", Security, "tls") == "security=tls"
  {
  }

  /** A Trojan link over WebSocket. */
  lemma TrojanWsText(host: string, u: User, s: Settings)
    requires TransportFor(u, s) == "ws"
    ensures TrojanQuery(host, u, s) ==
      "security=tls" + "&type=" + "ws" + "&host=" + QuoteAll(host) + "&path=" + QuotePath("/tr-ws") +
       "&sni=" + QuoteAll(Or(s.sniOverride, host)) + "&alpn=" + QuoteList(u.alpn) +
       "&fp=" + Or(u.fingerprint, s.defaultFingerprint)
  {
    hide Put, Name, QuoteAll, QuotePath, QuoteList, Upper, TransportFor;
    Spelling();
    TrojanHead();
    var q0 := "security=tls";
    var q1 := q0 + "&type=" + "ws";
    PutNext(q0, Type, "ws", "&type=");
    var q2 := q1 + "&host=" + QuoteAll(host);
    PutNext(q1, Host, QuoteAll(host), "&host=");
    var q3 := q2 + "&path=" + QuotePath("/tr-ws");
    PutNext(q2, Path, QuotePath("/tr-ws"), "&path=");
    var q4 := q3 + "&sni=" + QuoteAll(SniOf(host, s));
    PutNext(q3, Sni, QuoteAll(SniOf(host, s)), "&sni=");
    var q5 := q4 + "&alpn=" + QuoteList(u.alpn);
    PutNext(q4, Alpn, QuoteList(u.alpn), "&alpn=");
    PutNext(q5, Fp, FingerprintOf(u, s), "&fp=");
  }

  lemma HysteriaHead(sni: string)
    ensures Put("", Sni, QuoteAll(sni)) == "sni=" + QuoteAll(sni)
    ensures "&" + Name(Insecure) + "=" == "&insecure=" && "&" + Name(Obfs) + "=" == "&obfs="
    ensures "&" + Name(ObfsPassword) + "=" == "&obfs-password="
  {
    hide QuoteAll;
  }

  /** A Hysteria2 link, with the obfuscation password if the server has one. */
  lemma HysteriaText(sni: string, obfs: string)
    ensures ClientLinks.Hy2Query(sni, obfs) ==
      "sni=" + QuoteAll(sni) + "&insecure=" + "0" + "&alpn=" + "h3" +
      if obfs == "" then "" else "&obfs=" + "salamander" + "&obfs-password=" + QuoteAll(obfs)
  {
    hide Put, Name, QuoteAll;
    Spelling();
    HysteriaHead(sni);
    var q0 := "sni=" + QuoteAll(sni);
    var q1 := q0 + "&insecure=" + "0";
    PutNext(q0, Insecure, "0", "&insecure=");
    var q2 := q1 + "&alpn=" + "h3";
    PutNext(q1, Alpn, "h3", "&alpn=");
    var q3 := q2 + "&obfs=" + "salamander";
    PutNext(q2, Obfs, "salamander", "&obfs=");
    PutNext(q3, ObfsPassword, QuoteAll(obfs), "&obfs-password=");
    if obfs != "" {
      assert q3 + "&obfs-password=" + QuoteAll(obfs) ==
        q2 + ("&obfs=" + "salamander" + "&obfs-password=" + QuoteAll(obfs));
    }
  }
}
