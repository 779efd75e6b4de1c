/** Links against inbounds (app/links.py:4): what a user's link says is what some inbound of the
    generated configuration accepts. */
module Agreement {
  import opened Wrappers
  import opened Text
  import opened Users
  import opened Links
  import opened Inbounds

  // ---------------------------------------------------------------- normalised users

  /** `_normalize_protocol_fields` */
  function Normalize(protocol: string, transport: string, security: string): (string, string) {
    if protocol == "hysteria2" then ("", "tls")
    else if protocol == "wireguard" then ("", "")
    else
      var t0 := Lower(Or(transport, "ws"));
      var s0 := Lower(Or(security, "tls"));
      var t := if t0 in ServedTransports(protocol) then t0 else "ws";
      var s1 := if s0 == "tls" || s0 == "none" || s0 == "reality" then s0 else "tls";
      var s2 := if protocol == "trojan" || (protocol == "vmess" && s1 == "reality") then "tls" else s1;
      (t, if s2 == "reality" && t != "tcp" then "tls" else s2)
  }

  predicate Normalized(u: User) {
    Normalize(u.protocol, u.transport, u.security) == (u.transport, u.security)
  }

  lemma LowerWords()
    ensures Lower("ws") == "ws" && Lower("xhttp") == "xhttp" && Lower("grpc") == "grpc" && Lower("tcp") == "tcp"
    ensures Lower("httpupgrade") == "httpupgrade"
  {
  }

  lemma LowerSecurities()
    ensures Lower("tls") == "tls" && Lower("none") == "none" && Lower("reality") == "reality"
  {
  }

  /** Normalising twice is normalising once. */
  lemma NormalizeIdempotent(protocol: string, transport: string, security: string)
    ensures var n := Normalize(protocol, transport, security);
      Normalize(protocol, n.0, n.1) == n
  {
    hide Lower;
    LowerWords();
    LowerSecurities();
  }

  /** Transport and security the server can serve as they are. */
  predicate Serviceable(protocol: string, transport: string, security: string) {
    if protocol == "hysteria2" then transport == "" && security == "tls"
    else if protocol == "wireguard" then transport == "" && security == ""
    else
      && (transport in ServedTransports(protocol) || transport == "ws")
      && (security == "tls" || security == "none" || security == "reality")
      && (protocol == "trojan" ==> security == "tls")
      && (security == "reality" ==> protocol != "vmess" && transport == "tcp")
  }

  /** Normalising changes nothing exactly when everything can be served as it is. */
  lemma NormalizeKeeps(protocol: string, transport: string, security: string)
    ensures Normalize(protocol, transport, security) == (transport, security) <==>
      Serviceable(protocol, transport, security)
  {
    hide Lower;
    LowerWords();
    LowerSecurities();
  }

  /** The field, or its default where it is empty, is the word once it is lower-cased. */
  predicate Asked(wanted: string, default: string, word: string) {
    Lower(if wanted == "" then default else wanted) == word
  }

  /** Which transport each protocol is served over, word by word. */
  predicate Offered(protocol: string, word: string) {
    match protocol
    case "vless" => word == "ws" || word == "xhttp" || word == "grpc" || word == "tcp" || word == "httpupgrade"
    case "vmess" => word == "ws" || word == "xhttp" || word == "grpc" || word == "tcp" || word == "httpupgrade"
    case "trojan" => word == "ws" || word == "tcp"
    case "shadowsocks" => false
    case _ => word == "ws"
  }

  /** What comes out, whatever goes in: the transport asked for if there is one to offer, WebSocket
      otherwise; no security only if none was asked for, Reality only for VLESS-like protocols over raw
      TCP and only if asked for, and TLS in every other case. */
  lemma NormalizeExactly(protocol: string, transport: string, security: string)
    requires protocol != "hysteria2" && protocol != "wireguard"
    ensures var (t, s) := Normalize(protocol, transport, security);
      && (forall word :: Offered(protocol, word) && Asked(transport, "ws", word) ==> t == word)
      && ((forall word :: Offered(protocol, word) ==> !Asked(transport, "ws", word)) ==> t == "ws")
      && (s == "none" <==> Asked(security, "tls", "none") && protocol != "trojan")
      && (s == "reality" <==>
            Asked(security, "tls", "reality") && protocol != "trojan" && protocol != "vmess" && t == "tcp")
      && (s != "none" && s != "reality" ==> s == "tls")
  {
    hide Lower;
    var t0 := Lower(Or(transport, "ws"));
    assert t0 in ServedTransports(protocol) <==> Offered(protocol, t0);
    assert Asked(transport, "ws", t0);
  }

  lemma NormalizeBare(transport: string, security: string)
    ensures Normalize("hysteria2", transport, security) == ("", "tls")
    ensures Normalize("wireguard", transport, security) == ("", "")
  {
  }

  /** What a link advertises for any user, normalised or not: the user's transport, else the default
      one, if it is offered for the protocol, and WebSocket otherwise; the security asked for, else TLS. */
  lemma AdvertisedExactly(u: User, s: Settings)
    ensures var asked := Lower(if u.transport != "" then u.transport
                               else if s.defaultTransport != "" then s.defaultTransport else "ws");
      TransportFor(u, s) == if Offered(Lower(u.protocol), asked) then asked else "ws"
    ensures SecurityOf(u) == if u.security == "" then "tls" else Lower(u.security)
  {
    hide Lower;
    LowerSecurities();
  }

  /** The three protocols whose links name a transport. */
  predicate Tunnelled(protocol: string) {
    protocol == "vless" || protocol == "vmess" || protocol == "trojan"
  }

  lemma LowerProtocols()
    ensures Lower("vless") == "vless" && Lower("vmess") == "vmess" && Lower("trojan") == "trojan"
    ensures Lower("shadowsocks") == "shadowsocks"
  {
  }

  /** The link builders read a normalised user's fields as they are stored. */
  lemma NormalFields(u: User, s: Settings)
    requires Normalized(u) && Tunnelled(u.protocol)
    ensures Lower(u.protocol) == u.protocol
    ensures u.transport in ServedTransports(u.protocol) && TransportFor(u, s) == u.transport
    ensures SecurityOf(u) == u.security && (u.security == "tls" || u.security == "none" || u.security == "reality")
    ensures u.security == "reality" ==> u.protocol == "vless" && u.transport == "tcp"
    ensures u.protocol == "trojan" ==> u.security == "tls"
  {
    hide Lower;
    LowerWords();
    LowerSecurities();
    LowerProtocols();
  }

  // ---------------------------------------------------------------- ports

  /** `_link_port` */
  function LinkPort(s: Settings): nat {
    var p := if s.publicPort == 0 then 443 else s.publicPort;
    if 1 <= p <= 65535 then p else 443
  }

  /** `_tcp_port` */
  function TcpPort(protocol: string, security: string): nat {
    var p := Lower(Or(protocol, "vless"));
    var sec := Lower(Or(security, "none"));
    if p == "vless" then
      if sec == "tls" then TCP_VLESS_TLS_PORT
      else if sec == "reality" then TCP_VLESS_REALITY_PORT
      else TCP_VLESS_PORT
    else if p == "vmess" then
      if sec == "tls" then TCP_VMESS_TLS_PORT else TCP_VMESS_PORT
    else if p == "trojan" then TCP_TROJAN_PORT
    else TCP_VLESS_PORT
  }

  /** The port of `_user_endpoint` for a user this process serves itself. */
  function EndpointPort(u: User, s: Settings, env: Server): nat {
    var proto := Lower(Or(u.protocol, "vless"));
    var transport := Lower(Or(u.transport, "ws"));
    var sec := Lower(Or(u.security, "none"));
    if proto == "wireguard" then 51820
    else if proto == "hysteria2" then HY2_PORT
    else if proto == "shadowsocks" then
      if Lower(RawSsMethod(u, s)) in SS_2022_METHODS then SS_2022_PORT else SS_PORT
    else if transport == "tcp" then
      if proto == "vless" && sec == "tls" && FallbackActive(env) then env.fallbackPort else TcpPort(proto, sec)
    else LinkPort(s)
  }

  /** The raw-TCP port of a normalised user. */
  function RawPort(u: User, env: Server): nat {
    if u.protocol == "vless" && u.security == "tls" && env.fallbackPort != 0 && env.tlsReady then env.fallbackPort
    else if u.protocol == "trojan" then 10012
    else if u.protocol == "vmess" then (if u.security == "tls" then 10011 else 10010)
    else if u.security == "tls" then 10008
    else if u.security == "reality" then 10009
    else 10007
  }

  /** A user off raw TCP dials the port of the settings, or 443 where that is none; a raw-TCP user
      the port of protocol and security. */
  lemma NormalPort(u: User, s: Settings, env: Server)
    requires Normalized(u) && Tunnelled(u.protocol)
    ensures u.transport != "tcp" ==> EndpointPort(u, s, env) == LinkPort(s)
    ensures u.transport != "tcp" && 1 <= s.publicPort <= 65535 ==> EndpointPort(u, s, env) == s.publicPort
    ensures u.transport != "tcp" && !(1 <= s.publicPort <= 65535) ==> EndpointPort(u, s, env) == 443
    ensures u.transport == "tcp" ==> EndpointPort(u, s, env) == RawPort(u, env)
  {
    hide Lower, TransportFor, SecurityOf, Normalized;
    NormalFields(u, AnySettings());
    LowerWords();
    LowerSecurities();
    LowerProtocols();
  }

  /** The protocols without a transport dial a port of their own. */
  lemma OtherPorts(u: User, s: Settings, env: Server)
    ensures u.protocol == "wireguard" ==> EndpointPort(u, s, env) == 51820
    ensures u.protocol == "hysteria2" ==> EndpointPort(u, s, env) == 443
    ensures u.protocol == "shadowsocks" ==>
      EndpointPort(u, s, env) == if Lower(RawSsMethod(u, s)) in SS_2022_METHODS then 10014 else 10006
  {
    hide RawSsMethod, SS_2022_METHODS, TcpPort, LinkPort;
    LowerProtocols();
    assert Lower("wireguard") == "wireguard" && Lower("hysteria2") == "hysteria2";
  }

  function AnySettings(): Settings {
    Settings(443, "ws", "chrome", "", "", "", "", true, "auto", None, "")
  }

  predicate StartsWith(s: string, prefix: string) {
    |prefix| <= |s| && s[..|prefix|] == prefix
  }

  lemma Diverge(s: string, prefix: string, i: nat)
    requires i < |s| && i < |prefix| && s[i] != prefix[i]
    ensures !StartsWith(s, prefix)
  {
    if |prefix| <= |s| {
      assert s[..|prefix|][i] == s[i];
    }
  }

  /** The nginx location table: the upstream port of a request path. */
  function Upstream(path: string): int {
    if StartsWith(path, "/vl-ws") then 10001
    else if StartsWith(path, "/vm-ws") then 10002
    else if StartsWith(path, "/tr-ws") then 10003
    else if StartsWith(path, "/xhttp") then 10004
    else if StartsWith(path, "/hup") then 10013
    else if StartsWith(path, "/titan") then 10005
    else if path == "/ss" then 10006
    else 10000
  }

  lemma WsUpstreams()
    ensures Upstream("/vl-ws") == VLESS_WS_PORT && Upstream("/vm-ws") == VMESS_WS_PORT
    ensures Upstream("/tr-ws") == TROJAN_WS_PORT
  {
    Diverge("/vm-ws", "/vl-ws", 2);
    Diverge("/tr-ws", "/vl-ws", 1);
    Diverge("/tr-ws", "/vm-ws", 1);
  }

  lemma XhttpUpstream()
    ensures Upstream("/xhttp") == XHTTP_PORT
  {
    Diverge("/xhttp", "/vl-ws", 1);
    Diverge("/xhttp", "/vm-ws", 1);
    Diverge("/xhttp", "/tr-ws", 1);
  }

  lemma UpgradeUpstream()
    ensures Upstream("/hup") == HTTPUPGRADE_PORT
  {
    Diverge("/hup", "/vl-ws", 1);
    Diverge("/hup", "/vm-ws", 1);
    Diverge("/hup", "/tr-ws", 1);
    Diverge("/hup", "/xhttp", 1);
  }

  lemma GrpcUpstream()
    ensures Upstream("/titan") == GRPC_PORT
  {
    Diverge("/titan", "/vl-ws", 1);
    Diverge("/titan", "/vm-ws", 1);
    Diverge("/titan", "/tr-ws", 2);
    Diverge("/titan", "/xhttp", 1);
    Diverge("/titan", "/hup", 1);
  }
}
