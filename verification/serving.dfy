/** The contract of app/links.py: every link of an enabled, normalised, locally served user reaches
    an inbound that knows the user. */
module Serving {
  import opened Text
  import opened Percent
  import opened Users
  import opened SsKeys
  import opened Links
  import opened Parser
  import opened LinkReading
  import opened VlessLinks
  import opened TrojanLinks
  import opened VmessLinks
  import opened Inbounds
  import opened Agreement
  import VmessJson

  /** Some public socket of the configuration listens at the TCP port, so nginx does not. */
  predicate Owned(inbounds: seq<Inbound>, port: int) {
    exists ib :: ib in inbounds && ib.listen == Anywhere && ib.network == "tcp" && ib.port == port
  }

  /** A client that follows `e` dials `ib` itself. */
  predicate Direct(e: Entry, ib: Inbound) {
    ib.listen == Anywhere && e.transport == ib.network && e.port == ib.port && e.security == ib.security
  }

  /** nginx hands the path or gRPC service of `e` to the port of `ib`, which expects it. */
  predicate Proxied(e: Entry, ib: Inbound) {
    if e.transport == "grpc" then
      ib.path == Or(e.service, GRPC_SERVICE) && Upstream("/" + Or(e.service, GRPC_SERVICE)) == ib.port
    else ib.path == e.path && Upstream(e.path) == ib.port
  }

  /** The client arrives through nginx: it dials the port of nginx, no public socket of Xray is in the
      way, and `ib` expects plain traffic and no PROXY header, which nginx does not send. */
  predicate ThroughNginx(inbounds: seq<Inbound>, e: Entry, ib: Inbound, env: Server) {
    && ib.listen == Loopback && ib.security == "none" && e.transport == ib.network && !ib.acceptProxy
    && e.port == env.nginxPort && !Owned(inbounds, e.port) && Proxied(e, ib)
  }

  /** `front` hands the path of `e` on to `ib`, with a PROXY header exactly if `ib` waits for one. */
  predicate HandsOn(front: Inbound, e: Entry, ib: Inbound) {
    && front.listen == Anywhere && front.port == e.port && front.security == e.security
    && exists f :: f in front.fallbacks && f.path == e.path && f.dest == ib.port && (f.xver > 0 <==> ib.acceptProxy)
  }

  /** The client arrives through the single-port fallback. */
  predicate ThroughFallback(inbounds: seq<Inbound>, e: Entry, ib: Inbound) {
    && ib.listen == Loopback && ib.security == "none" && e.transport == ib.network && ib.path == e.path
    && exists front :: front in inbounds && HandsOn(front, e, ib)
  }

  /** The inbound knows the user by the link's credential, and everyone on it has the link's flow. */
  predicate Admits(ib: Inbound, e: Entry, u: User) {
    && (exists c :: c in ib.clients && c.email == u.uid && c.cred == e.user)
    && (forall c :: c in ib.clients ==> c.flow == e.flow)
  }

  predicate ServedBy(inbounds: seq<Inbound>, ib: Inbound, e: Entry, u: User, env: Server) {
    && ib.protocol == e.kind && Admits(ib, e, u)
    && (Direct(e, ib) || ThroughNginx(inbounds, e, ib, env) || ThroughFallback(inbounds, e, ib))
  }

  predicate Served(inbounds: seq<Inbound>, e: Entry, u: User, env: Server) {
    exists ib :: ib in inbounds && ServedBy(inbounds, ib, e, u, env)
  }

  // ---------------------------------------------------------------- what the configuration looks like

  predicate HasUser(users: seq<User>, p: User -> bool) {
    exists u :: u in users && p(u)
  }

  /** A user the single-port fallback needs. */
  predicate HasVlessTls(users: seq<User>) {
    HasUser(users, u => RawTcp(u, "vless", "tls"))
  }

  /** Which TCP ports the public sockets take up. */
  predicate Occupied(users: seq<User>, env: Server, port: int) {
    || (port == TCP_VLESS_PORT && HasUser(users, u => RawTcp(u, "vless", "none")))
    || (port == TCP_VMESS_PORT && HasUser(users, u => RawTcp(u, "vmess", "none")))
    || (env.tlsReady && env.fallbackPort == 0 && port == TCP_VLESS_TLS_PORT && HasVlessTls(users))
    || (env.tlsReady && port == TCP_VMESS_TLS_PORT && HasUser(users, u => RawTcp(u, "vmess", "tls")))
    || (env.tlsReady && port == TCP_TROJAN_PORT && HasUser(users, u => RawTrojan(u)))
    || (env.tlsReady && env.fallbackPort != 0 && port == env.fallbackPort && HasVlessTls(users))
    || (env.realityPriv != "" && port == TCP_VLESS_REALITY_PORT && HasUser(users, u => RawTcp(u, "vless", "reality")))
  }

  lemma SomeEntries(users: seq<User>, p: User -> bool, f: User -> Client)
    ensures Entries(Select(users, p), f) != [] <==> HasUser(users, p)
  {
    var chosen := Select(users, p);
    if chosen != [] {
      assert chosen[0] in chosen;
    }
  }

  lemma SomeTcp(users: seq<User>, protocol: string, security: string)
    ensures TcpClients(users, protocol, security) != [] <==> HasUser(users, u => RawTcp(u, protocol, security))
  {
    SomeEntries(users, u => RawTcp(u, protocol, security), u => MkClient(u, ""));
  }

  lemma SomeTrojan(users: seq<User>)
    ensures TrojanTcp(users) != [] <==> HasUser(users, u => RawTrojan(u))
  {
    SomeEntries(users, u => RawTrojan(u), u => MkClient(u, ""));
  }

  lemma SomeReality(users: seq<User>, s: Settings)
    ensures RealityClients(users, s) != [] <==> HasUser(users, u => RawTcp(u, "vless", "reality"))
  {
    SomeEntries(users, u => RawTcp(u, "vless", "reality"), u => MkClient(u, FlowFor(s, "tcp", "reality")));
  }

  /** Inbounds behind nginx and of Shadowsocks. */
  predicate InnerShape(ib: Inbound, env: Server) {
    && ib.listen == Loopback && ib.fallbacks == [] && ib.network != "tcp"
    && (ib.network == "ws" ==> ib.acceptProxy == FallbackActive(env))
    && (ib.network != "ws" ==> !ib.acceptProxy)
    && (ib.network == "xhttp" ==> ib.port == XHTTP_PORT)
    && (ib.network == "httpupgrade" ==> ib.port == HTTPUPGRADE_PORT)
    && (ib.network == "grpc" ==> ib.port == GRPC_PORT)
  }

  /** Inbounds with a public socket. */
  predicate OuterShape(ib: Inbound, users: seq<User>, env: Server) {
    && ib.listen == Anywhere && (ib.network == "tcp" || ib.network == "hysteria")
    && (ib.network == "tcp" ==> Occupied(users, env, ib.port))
    && (ib.security == "tls" ==> env.tlsReady)
    && (ib.security == "reality" ==> env.realityPriv != "")
    && (ib.fallbacks != [] ==>
          FallbackActive(env) && ib.port == env.fallbackPort && ib.security == "tls" && HasVlessTls(users)
          && ib.fallbacks == WsFallbacks())
  }

  lemma WsShape(users: seq<User>, env: Server, ib: Inbound)
    requires ib in WsInbounds(users, env)
    ensures InnerShape(ib, env)
  {
    hide EnabledClients, FallbackActive;
  }

  lemma SharedShape(users: seq<User>, env: Server, ib: Inbound)
    requires ib in SharedInbounds(users, XHTTP_PORT, "xhttp", "/xhttp") ||
      ib in SharedInbounds(users, HTTPUPGRADE_PORT, "httpupgrade", "/hup") ||
      ib in SharedInbounds(users, GRPC_PORT, "grpc", "titan")
    ensures InnerShape(ib, env)
  {
    hide EnabledClients, FallbackActive;
  }

  lemma SsShape(sha: Hash, users: seq<User>, s: Settings, env: Server, cipher: string, ib: Inbound)
    requires ib in SsInbounds(sha, users, s, cipher) || ib == Api()
    ensures InnerShape(ib, env)
  {
    hide LegacyClients, ModernClients, FallbackActive;
  }

  lemma PlainTcpShape(users: seq<User>, env: Server, ib: Inbound)
    requires ib in PlainTcpInbounds(users)
    ensures OuterShape(ib, users, env)
  {
    hide TcpClients, HasUser, FallbackActive, WsFallbacks;
    SomeTcp(users, "vless", "none");
    SomeTcp(users, "vmess", "none");
  }

  lemma TlsShape(users: seq<User>, env: Server, ib: Inbound)
    requires ib in TlsInbounds(users, env)
    ensures OuterShape(ib, users, env)
  {
    hide TcpClients, TrojanTcp, HasUser, WsFallbacks;
    SomeTcp(users, "vless", "tls");
    SomeTcp(users, "vmess", "tls");
    SomeTrojan(users);
  }

  lemma FallbackShape(users: seq<User>, env: Server, ib: Inbound)
    requires ib in FallbackInbound(users, env)
    ensures OuterShape(ib, users, env)
  {
    hide TcpClients, HasUser, WsFallbacks;
    SomeTcp(users, "vless", "tls");
  }

  lemma RealityShape(users: seq<User>, s: Settings, env: Server, ib: Inbound)
    requires ib in RealityInbound(users, s, env)
    ensures OuterShape(ib, users, env)
  {
    hide RealityClients, HasUser, WsFallbacks;
    SomeReality(users, s);
  }

  lemma HysteriaShape(users: seq<User>, env: Server, ib: Inbound)
    requires ib in Hysteria2Inbound(users, env)
    ensures OuterShape(ib, users, env)
  {
    hide EnabledClients, HasUser, FallbackActive, WsFallbacks;
  }

  /** Every inbound of the configuration is one of the two kinds. */
  lemma GeneratedShape(sha: Hash, users: seq<User>, s: Settings, env: Server, cipher: string, ib: Inbound)
    requires ib in Generated(sha, users, s, env, cipher)
    ensures InnerShape(ib, env) || OuterShape(ib, users, env)
  {
    hide WsInbounds, SharedInbounds, SsInbounds, PlainTcpInbounds, TlsInbounds, FallbackInbound, RealityInbound,
      Hysteria2Inbound, InnerShape, OuterShape, Api;
    if ib in WsInbounds(users, env) {
      WsShape(users, env, ib);
    } else if ib in WebInbounds(users, env) {
      SharedShape(users, env, ib);
    } else if ib in SsInbounds(sha, users, s, cipher) || ib == Api() {
      SsShape(sha, users, s, env, cipher, ib);
    } else if ib in PlainTcpInbounds(users) {
      PlainTcpShape(users, env, ib);
    } else if ib in TlsInbounds(users, env) {
      TlsShape(users, env, ib);
    } else if ib in FallbackInbound(users, env) {
      FallbackShape(users, env, ib);
    } else if ib in RealityInbound(users, s, env) {
      RealityShape(users, s, env, ib);
    } else {
      HysteriaShape(users, env, ib);
    }
  }

  lemma OccupiedPlain(users: seq<User>, env: Server, port: int) returns (ib: Inbound)
    requires (port == TCP_VLESS_PORT && HasUser(users, u => RawTcp(u, "vless", "none"))) ||
      (port == TCP_VMESS_PORT && HasUser(users, u => RawTcp(u, "vmess", "none")))
    ensures ib in PlainTcpInbounds(users) && ib.listen == Anywhere && ib.network == "tcp" && ib.port == port
  {
    hide TcpClients, HasUser;
    SomeTcp(users, "vless", "none");
    SomeTcp(users, "vmess", "none");
    var vless := port == TCP_VLESS_PORT && HasUser(users, u => RawTcp(u, "vless", "none"));
    ib := Plain(if vless then "in-vless-tcp" else "in-vmess-tcp", Anywhere, port, if vless then "vless" else "vmess",
                if vless then TcpClients(users, "vless", "none") else TcpClients(users, "vmess", "none"),
                "tcp", "none", "");
  }

  lemma OccupiedTls(users: seq<User>, env: Server, port: int) returns (ib: Inbound)
    requires env.tlsReady
    requires (!FallbackActive(env) && port == TCP_VLESS_TLS_PORT && HasVlessTls(users)) ||
      (port == TCP_VMESS_TLS_PORT && HasUser(users, u => RawTcp(u, "vmess", "tls"))) ||
      (port == TCP_TROJAN_PORT && HasUser(users, u => RawTrojan(u)))
    ensures ib in TlsInbounds(users, env) && ib.listen == Anywhere && ib.network == "tcp" && ib.port == port
  {
    hide TcpClients, TrojanTcp, HasUser;
    SomeTcp(users, "vless", "tls");
    SomeTcp(users, "vmess", "tls");
    SomeTrojan(users);
    if port == TCP_VLESS_TLS_PORT {
      ib := Plain("in-vless-tcp-tls", Anywhere, port, "vless", TcpClients(users, "vless", "tls"), "tcp", "tls", "");
    } else if port == TCP_VMESS_TLS_PORT {
      ib := Plain("in-vmess-tcp-tls", Anywhere, port, "vmess", TcpClients(users, "vmess", "tls"), "tcp", "tls", "");
    } else {
      ib := Plain("in-trojan-tcp", Anywhere, port, "trojan", TrojanTcp(users), "tcp", "tls", "");
    }
  }

  /** The inbound of the single-port fallback. */
  function Front(users: seq<User>, env: Server): Inbound {
    Plain("in-vless-fallback", Anywhere, env.fallbackPort, "vless", TcpClients(users, "vless", "tls"), "tcp", "tls", "")
    .(fallbacks := WsFallbacks())
  }

  lemma FrontPresent(users: seq<User>, env: Server)
    requires FallbackActive(env) && HasVlessTls(users)
    ensures Front(users, env) in FallbackInbound(users, env)
  {
    hide TcpClients, HasUser, WsFallbacks;
    SomeTcp(users, "vless", "tls");
  }

  lemma OccupiedReality(users: seq<User>, s: Settings, env: Server) returns (ib: Inbound)
    requires env.realityPriv != "" && HasUser(users, u => RawTcp(u, "vless", "reality"))
    ensures ib in RealityInbound(users, s, env)
    ensures ib.listen == Anywhere && ib.network == "tcp" && ib.port == TCP_VLESS_REALITY_PORT
  {
    hide RealityClients, HasUser;
    SomeReality(users, s);
    ib := RealityInbound(users, s, env)[0];
  }

  lemma OccupiedIsOwned(sha: Hash, users: seq<User>, s: Settings, env: Server, cipher: string, port: int)
    requires Occupied(users, env, port)
    ensures Owned(Generated(sha, users, s, env, cipher), port)
  {
    hide Generated, PlainTcpInbounds, TlsInbounds, FallbackInbound, RealityInbound, HasUser, WsFallbacks;
    var ib: Inbound;
    if (port == TCP_VLESS_PORT && HasUser(users, u => RawTcp(u, "vless", "none"))) ||
       (port == TCP_VMESS_PORT && HasUser(users, u => RawTcp(u, "vmess", "none"))) {
      ib := OccupiedPlain(users, env, port);
    } else if env.tlsReady &&
              ((!FallbackActive(env) && port == TCP_VLESS_TLS_PORT && HasVlessTls(users)) ||
               (port == TCP_VMESS_TLS_PORT && HasUser(users, u => RawTcp(u, "vmess", "tls"))) ||
               (port == TCP_TROJAN_PORT && HasUser(users, u => RawTrojan(u)))) {
      ib := OccupiedTls(users, env, port);
    } else if FallbackActive(env) && port == env.fallbackPort && HasVlessTls(users) {
      FrontPresent(users, env);
      ib := Front(users, env);
    } else {
      ib := OccupiedReality(users, s, env);
    }
    TcpPart(sha, users, s, env, cipher, ib);
  }

  /** The ports Xray listens at in public, in terms of the users and the server. */
  lemma OwnedExactly(sha: Hash, users: seq<User>, s: Settings, env: Server, cipher: string, port: int)
    ensures Owned(Generated(sha, users, s, env, cipher), port) <==> Occupied(users, env, port)
  {
    hide Generated, Occupied;
    if Occupied(users, env, port) {
      OccupiedIsOwned(sha, users, s, env, cipher, port);
    } else {
      forall ib | ib in Generated(sha, users, s, env, cipher) && ib.listen == Anywhere && ib.network == "tcp"
        ensures ib.port != port
      {
        GeneratedShape(sha, users, s, env, cipher, ib);
      }
    }
  }

  // ---------------------------------------------------------------- finding the user

  lemma EntriesFlow(users: seq<User>, f: User -> Client, flow: string)
    requires forall u :: f(u).flow == flow
    ensures forall c :: c in Entries(users, f) ==> c.flow == flow
  {
  }

  lemma ClientsFlow(users: seq<User>, p: User -> bool)
    ensures forall c :: c in Clients(users, p) ==> c.flow == ""
  {
    EntriesFlow(Select(users, p), v => MkClient(v, ""), "");
  }

  lemma EnabledFlow(users: seq<User>, protocol: string)
    ensures forall c :: c in EnabledClients(users, protocol) ==> c.flow == ""
  {
    ClientsFlow(users, v => Enabled(v, protocol));
  }

  /** A user of an inbound behind nginx is admitted there. */
  lemma WebAdmits(users: seq<User>, u: User, e: Entry, ib: Inbound)
    requires u in users && Enabled(u, e.kind) && e.user == u.uuid && e.flow == ""
    requires ib.clients == EnabledClients(users, e.kind)
    ensures ib.clients != [] && Admits(ib, e, u)
  {
    hide EnabledClients, Enabled;
    EnabledEntry(users, e.kind, u);
    EnabledFlow(users, e.kind);
    assert MkClient(u, "") in ib.clients;
  }

  /** A user on a public raw-TCP socket. */
  lemma RawServed(clients: seq<Client>, u: User, s: Settings, e: Entry, ib: Inbound)
    requires MkClient(u, e.flow) in clients && (forall c :: c in clients ==> c.flow == e.flow)
    requires e.user == u.uuid && e.transport == "tcp"
    requires ib.clients == clients && ib.protocol == e.kind && ib.network == "tcp" && ib.listen == Anywhere
    requires ib.port == e.port && ib.security == e.security
    ensures Admits(ib, e, u) && Direct(e, ib)
  {
    assert MkClient(u, e.flow).email == u.uid;
  }

  lemma TcpEntry(users: seq<User>, u: User, protocol: string, security: string)
    requires u in users && RawTcp(u, protocol, security)
    ensures MkClient(u, "") in TcpClients(users, protocol, security)
    ensures forall c :: c in TcpClients(users, protocol, security) ==> c.flow == ""
  {
    ClientEntry(users, v => RawTcp(v, protocol, security), u);
    ClientsFlow(users, v => RawTcp(v, protocol, security));
  }

  lemma TrojanTcpEntry(users: seq<User>, u: User)
    requires u in users && RawTrojan(u)
    ensures MkClient(u, "") in TrojanTcp(users)
    ensures forall c :: c in TrojanTcp(users) ==> c.flow == ""
  {
    ClientEntry(users, v => RawTrojan(v), u);
    ClientsFlow(users, v => RawTrojan(v));
  }

  lemma RealityEntryOf(users: seq<User>, u: User, s: Settings)
    requires u in users && RawTcp(u, "vless", "reality")
    ensures MkClient(u, FlowFor(s, "tcp", "reality")) in RealityClients(users, s)
    ensures forall c :: c in RealityClients(users, s) ==> c.flow == FlowFor(s, "tcp", "reality")
  {
    var flow := FlowFor(s, "tcp", "reality");
    SelectedEntry(Select(users, v => RawTcp(v, "vless", "reality")), v => MkClient(v, flow), u);
    EntriesFlow(Select(users, v => RawTcp(v, "vless", "reality")), v => MkClient(v, flow), flow);
  }

  /** What raw TCP needs of the server: a certificate for TLS, a private key for Reality. */
  predicate Equipped(u: User, env: Server) {
    && (u.transport == "tcp" && u.security == "tls" ==> env.tlsReady)
    && (u.security == "reality" ==> env.realityPriv != "")
  }

  // ---------------------------------------------------------------- parts of the configuration

  lemma WebPart(sha: Hash, users: seq<User>, s: Settings, env: Server, cipher: string)
    ensures forall ib :: ib in WebInbounds(users, env) ==> ib in Generated(sha, users, s, env, cipher)
  {
    hide WebInbounds, SsInbounds, PlainTcpInbounds, TlsInbounds, FallbackInbound, RealityInbound, Hysteria2Inbound;
  }

  lemma TcpPart(sha: Hash, users: seq<User>, s: Settings, env: Server, cipher: string, ib: Inbound)
    requires ib in PlainTcpInbounds(users) || ib in TlsInbounds(users, env) || ib in FallbackInbound(users, env) ||
      ib in RealityInbound(users, s, env)
    ensures ib in Generated(sha, users, s, env, cipher)
  {
    hide WebInbounds, SsInbounds, PlainTcpInbounds, TlsInbounds, FallbackInbound, RealityInbound, Hysteria2Inbound;
  }

  // ---------------------------------------------------------------- not on raw TCP

  /** What the links of a user who is not on raw TCP say. */
  predicate WebEntry(e: Entry, u: User, s: Settings) {
    && e.kind == u.protocol && e.user == u.uuid && e.flow == "" && e.port == LinkPort(s) && e.transport == u.transport
    && e.security == u.security
    && if e.transport == "grpc" then e.service == "" || e.service == GRPC_SERVICE
       else e.path == PathFor(u.protocol, u.transport)
  }

  lemma WsMember(users: seq<User>, u: User, env: Server, e: Entry) returns (ib: Inbound)
    requires u in users && Enabled(u, e.kind) && Tunnelled(e.kind) && e.user == u.uuid && e.flow == ""
    requires e.transport == "ws" && e.path == PathFor(e.kind, "ws")
    ensures ib in WsInbounds(users, env) && ib.protocol == e.kind && Admits(ib, e, u)
    ensures ib.listen == Loopback && ib.security == "none" && ib.network == "ws"
    ensures ib.acceptProxy == FallbackActive(env)
    ensures Proxied(e, ib) && exists f :: f in WsFallbacks() && f.path == e.path && f.dest == ib.port && f.xver == 1
  {
    hide EnabledClients, Upstream, Enabled, FallbackActive, Admits;
    WsUpstreams();
    var clients := EnabledClients(users, e.kind);
    var fallback := if e.kind == "vless" then WsFallbacks()[0]
                    else if e.kind == "vmess" then WsFallbacks()[1] else WsFallbacks()[2];
    ib := Plain(if e.kind == "vless" then "in-vless-ws"
                else if e.kind == "vmess" then "in-vmess-ws" else "in-trojan-ws",
                Loopback, fallback.dest, e.kind, clients, "ws", "none", e.path).(acceptProxy := FallbackActive(env));
    WebAdmits(users, u, e, ib);
    assert fallback in WsFallbacks();
  }

  lemma SharedMember(users: seq<User>, u: User, e: Entry, port: int, path: string) returns (ib: Inbound)
    requires u in users && Enabled(u, e.kind) && (e.kind == "vless" || e.kind == "vmess")
    requires e.user == u.uuid && e.flow == ""
    requires e.transport == "grpc" ==> path == Or(e.service, GRPC_SERVICE) && Upstream("/" + path) == port
    requires e.transport != "grpc" ==> path == e.path && Upstream(path) == port
    ensures ib in SharedInbounds(users, port, e.transport, path) && ib.protocol == e.kind && Admits(ib, e, u)
    ensures ib.listen == Loopback && ib.security == "none" && ib.network == e.transport && !ib.acceptProxy
    ensures Proxied(e, ib)
  {
    hide EnabledClients, Upstream, Enabled, Admits;
    ib := Plain(if e.kind == "vless" then "in-vless-" + e.transport else "in-vmess-" + e.transport,
                Loopback, port, e.kind,
                EnabledClients(users, e.kind), e.transport, "none", path);
    WebAdmits(users, u, e, ib);
  }

  /** The inbound of a user who is not on raw TCP, and how nginx reaches it. */
  lemma WebMember(sha: Hash, users: seq<User>, u: User, s: Settings, env: Server, cipher: string, e: Entry)
    returns (ib: Inbound)
    requires u in users && u.enabled && Tunnelled(u.protocol)
    requires u.transport in ServedTransports(u.protocol) && u.transport != "tcp" && WebEntry(e, u, s)
    ensures ib in Generated(sha, users, s, env, cipher) && ib.protocol == e.kind && Admits(ib, e, u)
    ensures ib.listen == Loopback && ib.security == "none" && ib.network == e.transport && Proxied(e, ib)
    ensures ib.acceptProxy == (u.transport == "ws" && FallbackActive(env))
    ensures u.transport == "ws" ==>
      exists f :: f in WsFallbacks() && f.path == e.path && f.dest == ib.port && f.xver == 1
  {
    hide Upstream, LinkPort, Generated, WsInbounds, SharedInbounds, Admits, Proxied, WsFallbacks, FallbackActive;
    WebPart(sha, users, s, env, cipher);
    if u.transport == "ws" {
      ib := WsMember(users, u, env, e);
    } else if u.transport == "xhttp" {
      XhttpUpstream();
      ib := SharedMember(users, u, e, XHTTP_PORT, "/xhttp");
    } else if u.transport == "httpupgrade" {
      UpgradeUpstream();
      ib := SharedMember(users, u, e, HTTPUPGRADE_PORT, "/hup");
    } else {
      GrpcUpstream();
      assert "/" + "titan" == "/titan";
      ib := SharedMember(users, u, e, GRPC_PORT, "titan");
    }
  }

  /** When the link of an enabled user works. A WebSocket user needs, once the fallback is on, that the
      port of the settings is the fallback's, TLS, and a raw VLESS-TLS user to bring the fallback up; the
      other users behind nginx need the port of the settings to be nginx's, and Xray not to take it for
      itself; a raw-TCP user needs the certificate or the key. */
  predicate Reachable(users: seq<User>, u: User, s: Settings, env: Server) {
    if u.transport == "tcp" then Equipped(u, env)
    else if u.transport == "ws" && env.fallbackPort != 0 && env.tlsReady then
      LinkPort(s) == env.fallbackPort && u.security == "tls" && HasVlessTls(users)
    else LinkPort(s) == env.nginxPort && !Occupied(users, env, env.nginxPort)
  }

  lemma WebServed(sha: Hash, users: seq<User>, u: User, s: Settings, env: Server, cipher: string, e: Entry)
    requires u in users && u.enabled && Tunnelled(u.protocol)
    requires u.transport in ServedTransports(u.protocol) && u.transport != "tcp" && WebEntry(e, u, s)
    requires Reachable(users, u, s, env)
    ensures Served(Generated(sha, users, s, env, cipher), e, u, env)
  {
    hide LinkPort, Generated, Admits, Proxied, WsFallbacks, HasVlessTls, Occupied, Owned,
      FallbackInbound;
    var all := Generated(sha, users, s, env, cipher);
    var ib := WebMember(sha, users, u, s, env, cipher, e);
    if u.transport == "ws" && FallbackActive(env) {
      var front := Front(users, env);
      FrontPresent(users, env);
      TcpPart(sha, users, s, env, cipher, front);
      var f :| f in WsFallbacks() && f.path == e.path && f.dest == ib.port && f.xver == 1;
      assert HandsOn(front, e, ib);
      ProxiedPath(e, ib);
      assert ThroughFallback(all, e, ib);
    } else {
      OwnedExactly(sha, users, s, env, cipher, LinkPort(s));
      assert ThroughNginx(all, e, ib, env);
    }
    assert ServedBy(all, ib, e, u, env);
  }

  lemma ProxiedPath(e: Entry, ib: Inbound)
    requires Proxied(e, ib) && e.transport == "ws"
    ensures ib.path == e.path
  {
  }

  lemma FallbackDest(f: Fallback)
    requires f in WsFallbacks()
    ensures f.dest == VLESS_WS_PORT || f.dest == VMESS_WS_PORT || f.dest == TROJAN_WS_PORT
  {
  }

  lemma WebUnserved(sha: Hash, users: seq<User>, u: User, s: Settings, env: Server, cipher: string, e: Entry,
                    ib: Inbound)
    requires u.transport in {"ws", "xhttp", "grpc", "httpupgrade"} && WebEntry(e, u, s)
    requires !Reachable(users, u, s, env) && ib in Generated(sha, users, s, env, cipher)
    ensures !ServedBy(Generated(sha, users, s, env, cipher), ib, e, u, env)
  {
    hide LinkPort, Generated, Admits, Proxied, WsFallbacks, HasVlessTls, Occupied, Owned;
    GeneratedShape(sha, users, s, env, cipher, ib);
    OwnedExactly(sha, users, s, env, cipher, LinkPort(s));
    forall front | front in Generated(sha, users, s, env, cipher)
      ensures !(ib.listen == Loopback && e.transport == ib.network && HandsOn(front, e, ib))
    {
      GeneratedShape(sha, users, s, env, cipher, front);
      forall f | f in front.fallbacks
        ensures f.dest == VLESS_WS_PORT || f.dest == VMESS_WS_PORT || f.dest == TROJAN_WS_PORT
      {
        FallbackDest(f);
      }
    }
  }

  // ---------------------------------------------------------------- raw TCP

  /** What the links of a raw-TCP user say. */
  predicate RawEntry(e: Entry, u: User, s: Settings, env: Server) {
    && e.kind == u.protocol && e.user == u.uuid && e.port == RawPort(u, env) && e.transport == "tcp"
    && e.security == u.security
    && e.flow == if u.security == "reality" && s.visionEnabled then "xtls-rprx-vision" else ""
  }

  lemma PlainTcpServed(users: seq<User>, u: User, s: Settings, env: Server, e: Entry) returns (ib: Inbound)
    requires u in users && (u.protocol == "vless" || u.protocol == "vmess") && u.transport == "tcp"
    requires u.security == "none" && RawEntry(e, u, s, env)
    ensures ib in PlainTcpInbounds(users) && ib.protocol == e.kind && Admits(ib, e, u) && Direct(e, ib)
  {
    hide TcpClients, FlowFor, Admits, Direct;
    TcpEntry(users, u, u.protocol, "none");
    var clients := TcpClients(users, u.protocol, "none");
    ib := Plain(if u.protocol == "vless" then "in-vless-tcp" else "in-vmess-tcp", Anywhere, e.port, u.protocol, clients,
                "tcp", "none", "");
    RawServed(clients, u, s, e, ib);
  }

  lemma TlsServed(users: seq<User>, u: User, s: Settings, env: Server, e: Entry) returns (ib: Inbound)
    requires u in users && Tunnelled(u.protocol) && u.transport == "tcp"
    requires u.security == "tls" && env.tlsReady && RawEntry(e, u, s, env)
    ensures ib in TlsInbounds(users, env) || ib in FallbackInbound(users, env)
    ensures ib.protocol == e.kind && Admits(ib, e, u) && Direct(e, ib)
  {
    hide TcpClients, TrojanTcp, FlowFor, Admits, Direct, WsFallbacks;
    var clients: seq<Client>;
    if u.protocol == "trojan" {
      TrojanTcpEntry(users, u);
      clients := TrojanTcp(users);
    } else {
      TcpEntry(users, u, u.protocol, "tls");
      clients := TcpClients(users, u.protocol, "tls");
    }
    var tag := if u.protocol == "trojan" then "in-trojan-tcp" else if u.protocol == "vmess" then "in-vmess-tcp-tls"
               else if FallbackActive(env) then "in-vless-fallback" else "in-vless-tcp-tls";
    ib := Plain(tag, Anywhere, e.port, u.protocol, clients, "tcp", "tls", "")
          .(fallbacks := if u.protocol == "vless" && FallbackActive(env) then WsFallbacks() else []);
    RawServed(clients, u, s, e, ib);
  }

  lemma RealityServed(users: seq<User>, u: User, s: Settings, env: Server, e: Entry) returns (ib: Inbound)
    requires u in users && u.protocol == "vless" && u.transport == "tcp"
    requires u.security == "reality" && env.realityPriv != "" && RawEntry(e, u, s, env)
    ensures ib in RealityInbound(users, s, env) && ib.protocol == e.kind && Admits(ib, e, u) && Direct(e, ib)
    ensures ib.serverNames == env.serverNames && ib.shortIds == env.shortIds
  {
    hide RealityClients, FlowFor, Admits, Direct;
    VisionFlow(s);
    RealityEntryOf(users, u, s);
    var clients := RealityClients(users, s);
    ib := Plain("in-vless-reality", Anywhere, TCP_VLESS_REALITY_PORT, "vless", clients, "tcp", "reality", "")
          .(serverNames := env.serverNames, shortIds := env.shortIds);
    RawServed(clients, u, s, e, ib);
  }

  lemma RawLinkServed(sha: Hash, users: seq<User>, u: User, s: Settings, env: Server, cipher: string, e: Entry)
    requires u in users && Tunnelled(u.protocol) && u.transport == "tcp" && Equipped(u, env)
    requires u.security == "tls" || u.security == "none" || u.security == "reality"
    requires u.security == "reality" ==> u.protocol == "vless"
    requires u.protocol == "trojan" ==> u.security == "tls"
    requires RawEntry(e, u, s, env)
    ensures Served(Generated(sha, users, s, env, cipher), e, u, env)
  {
    hide Generated, PlainTcpInbounds, TlsInbounds, FallbackInbound, RealityInbound, Admits, Direct, FlowFor, RawPort;
    var ib: Inbound;
    if u.security == "none" {
      ib := PlainTcpServed(users, u, s, env, e);
    } else if u.security == "tls" {
      ib := TlsServed(users, u, s, env, e);
    } else {
      ib := RealityServed(users, u, s, env, e);
    }
    TcpPart(sha, users, s, env, cipher, ib);
    assert ServedBy(Generated(sha, users, s, env, cipher), ib, e, u, env);
  }

  lemma RawUnserved(sha: Hash, users: seq<User>, u: User, s: Settings, env: Server, cipher: string, e: Entry,
                    ib: Inbound)
    requires u.transport == "tcp" && !Equipped(u, env) && RawEntry(e, u, s, env)
    requires ib in Generated(sha, users, s, env, cipher)
    ensures !ServedBy(Generated(sha, users, s, env, cipher), ib, e, u, env)
  {
    hide Generated, Admits, WsFallbacks, FallbackActive, HasVlessTls, Occupied, FlowFor, RawPort;
    GeneratedShape(sha, users, s, env, cipher, ib);
  }

  // ---------------------------------------------------------------- the contract

  /** The link of an enabled, normalised user whose protocol names a transport works exactly when it is
      reachable, whatever the other users, the settings and the server are. */
  lemma EntryServed(sha: Hash, users: seq<User>, u: User, s: Settings, env: Server, cipher: string, e: Entry)
    requires u in users && u.enabled && Tunnelled(u.protocol) && Normalized(u)
    requires u.transport != "tcp" ==> WebEntry(e, u, s)
    requires u.transport == "tcp" ==> RawEntry(e, u, s, env)
    ensures Served(Generated(sha, users, s, env, cipher), e, u, env) <==> Reachable(users, u, s, env)
  {
    hide Generated, Normalized, WebEntry, RawEntry, Equipped, TransportFor, SecurityOf, Lower, ServedBy, HasVlessTls,
      Occupied, LinkPort;
    NormalFields(u, s);
    if Reachable(users, u, s, env) {
      if u.transport == "tcp" {
        RawLinkServed(sha, users, u, s, env, cipher, e);
      } else {
        WebServed(sha, users, u, s, env, cipher, e);
      }
    } else {
      forall ib | ib in Generated(sha, users, s, env, cipher)
        ensures !ServedBy(Generated(sha, users, s, env, cipher), ib, e, u, env)
      {
        if u.transport == "tcp" {
          RawUnserved(sha, users, u, s, env, cipher, e, ib);
        } else {
          WebUnserved(sha, users, u, s, env, cipher, e, ib);
        }
      }
    }
  }

  lemma VlessEntryShape(host: string, u: User, s: Settings, env: Server)
    requires Normalized(u) && u.protocol == "vless"
    ensures var e := VlessEntry(host, EndpointPort(u, s, env), u, s);
      && (u.transport != "tcp" ==> WebEntry(e, u, s))
      && (u.transport == "tcp" ==> RawEntry(e, u, s, env))
  {
    hide Normalized, TransportFor, SecurityOf, FlowFor, AlpnList, Upper, Lower, LinkPort, RawPort, EndpointPort,
      FallbackActive, SniOf, RealitySni, FingerprintOf;
    NormalFields(u, s);
    NormalPort(u, s, env);
  }

  lemma TrojanEntryShape(host: string, u: User, s: Settings, env: Server)
    requires Normalized(u) && u.protocol == "trojan"
    ensures var e := TrojanEntry(host, EndpointPort(u, s, env), u, s);
      && (u.transport != "tcp" ==> WebEntry(e, u, s))
      && (u.transport == "tcp" ==> RawEntry(e, u, s, env))
  {
    hide Normalized, TransportFor, SecurityOf, FlowFor, AlpnList, Upper, Lower, LinkPort, RawPort, EndpointPort,
      FallbackActive, SniOf, FingerprintOf;
    NormalFields(u, s);
    NormalPort(u, s, env);
  }

  lemma VmessEntryShape(host: string, u: User, s: Settings, env: Server)
    requires Normalized(u) && u.protocol == "vmess"
    ensures var e := VmessLinkEntry(host, EndpointPort(u, s, env), u, s);
      && (u.transport != "tcp" ==> WebEntry(e, u, s))
      && (u.transport == "tcp" ==> RawEntry(e, u, s, env))
  {
    hide Normalized, TransportFor, SecurityOf, FlowFor, AlpnList, Upper, Lower, LinkPort, RawPort, EndpointPort,
      FallbackActive, SniOf, FingerprintOf;
    NormalFields(u, s);
    NormalPort(u, s, env);
  }

  /** VLESS links, for every transport and security: what the parser reads is served exactly when the
      link is reachable. */
  lemma VlessAgreement(json: VmessJson.Json, sha: Hash, host: string, users: seq<User>, u: User, s: Settings,
                       env: Server, cipher: string)
    requires u in users && u.enabled && u.protocol == "vless" && Normalized(u)
    requires VlessInputs(host, u, s)
    ensures var e := ParseLink(json, BuildVless(host, EndpointPort(u, s, env), u, s));
      e.Some? && (Served(Generated(sha, users, s, env, cipher), e.value, u, env) <==> Reachable(users, u, s, env))
  {
    hide Generated, Normalized, VlessInputs, EndpointPort, ParseLink, BuildVless, VlessEntry, WebEntry, RawEntry,
      Reachable, Served;
    LowerProtocols();
    VlessRoundTrip(json, host, EndpointPort(u, s, env), u, s);
    VlessEntryShape(host, u, s, env);
    EntryServed(sha, users, u, s, env, cipher, VlessEntry(host, EndpointPort(u, s, env), u, s));
  }

  lemma TrojanAgreement(json: VmessJson.Json, sha: Hash, host: string, users: seq<User>, u: User, s: Settings,
                        env: Server, cipher: string)
    requires u in users && u.enabled && u.protocol == "trojan" && Normalized(u)
    requires HostText(host) && RawValue(FingerprintOf(u, s))
    ensures var e := ParseLink(json, BuildTrojan(host, EndpointPort(u, s, env), u, s));
      e.Some? && (Served(Generated(sha, users, s, env, cipher), e.value, u, env) <==> Reachable(users, u, s, env))
  {
    hide Generated, Normalized, HostText, RawValue, FingerprintOf, EndpointPort, ParseLink, BuildTrojan, TrojanEntry,
      WebEntry, RawEntry, Reachable, Served;
    TrojanRoundTrip(json, host, EndpointPort(u, s, env), u, s);
    TrojanEntryShape(host, u, s, env);
    EntryServed(sha, users, u, s, env, cipher, TrojanEntry(host, EndpointPort(u, s, env), u, s));
  }

  lemma VmessAgreement(json: VmessJson.Json, sha: Hash, host: string, users: seq<User>, u: User, s: Settings,
                       env: Server, cipher: string)
    requires u in users && u.enabled && u.protocol == "vmess" && Normalized(u)
    requires Invertible(json)
    ensures var e := ParseLink(json, BuildVmess(json, host, EndpointPort(u, s, env), u, s));
      e.Some? && (Served(Generated(sha, users, s, env, cipher), e.value, u, env) <==> Reachable(users, u, s, env))
  {
    hide Generated, Normalized, Invertible, EndpointPort, ParseLink, BuildVmess, VmessLinkEntry, WebEntry, RawEntry,
      Reachable, Served;
    VmessRoundTrip(json, host, EndpointPort(u, s, env), u, s);
    VmessEntryShape(host, u, s, env);
    EntryServed(sha, users, u, s, env, cipher, VmessLinkEntry(host, EndpointPort(u, s, env), u, s));
  }

  // ---------------------------------------------------------------- Hysteria2

  /** A public QUIC inbound at the port that knows the user by the uuid. */
  predicate KnownOverQuic(ib: Inbound, port: int, u: User) {
    && ib.protocol == "hysteria" && ib.listen == Anywhere && ib.port == port && ib.security == "tls"
    && exists c :: c in ib.clients && c.email == u.uid && c.cred == u.uuid
  }

  /** An enabled Hysteria2 user is known at the port the link names exactly if there is a certificate. */
  lemma HysteriaAgreement(sha: Hash, users: seq<User>, u: User, s: Settings, env: Server, cipher: string)
    requires u in users && u.enabled && u.protocol == "hysteria2"
    ensures (exists ib :: ib in Generated(sha, users, s, env, cipher) && KnownOverQuic(ib, EndpointPort(u, s, env), u))
      <==> env.tlsReady
  {
    hide EndpointPort, WebInbounds, SsInbounds, PlainTcpInbounds, TlsInbounds, FallbackInbound, RealityInbound,
      EnabledClients, HasUser, HasVlessTls, Occupied, FallbackActive, WsFallbacks;
    OtherPorts(u, s, env);
    if env.tlsReady {
      EnabledEntry(users, "hysteria2", u);
      var c := MkClient(u, "");
      var ib := Plain("in-hysteria2", Anywhere, 443, "hysteria", EnabledClients(users, "hysteria2"), "hysteria", "tls",
                      "");
      assert c in ib.clients && c.email == u.uid && c.cred == u.uuid;
      assert ib in Hysteria2Inbound(users, env);
      assert KnownOverQuic(ib, 443, u);
    } else {
      forall ib | ib in Generated(sha, users, s, env, cipher)
        ensures !KnownOverQuic(ib, EndpointPort(u, s, env), u)
      {
        GeneratedShape(sha, users, s, env, cipher, ib);
      }
    }
  }

  // ---------------------------------------------------------------- after tuning

  lemma TunedSame(ib: Inbound, sock: bool, sniff: bool)
    ensures var t := Tuned(ib, sock, sniff); t == ib.(sockopt := t.sockopt, sniffing := t.sniffing)
  {
    hide Lower;
  }

  lemma TunedOwned(inbounds: seq<Inbound>, sock: bool, sniff: bool, port: int)
    ensures Owned(TunedAll(inbounds, sock, sniff), port) <==> Owned(inbounds, port)
  {
    hide Tuned;
    var tuned := TunedAll(inbounds, sock, sniff);
    forall i | 0 <= i < |inbounds|
      ensures tuned[i].listen == inbounds[i].listen && tuned[i].network == inbounds[i].network
      ensures tuned[i].port == inbounds[i].port
    {
      TunedSame(inbounds[i], sock, sniff);
    }
    if Owned(inbounds, port) {
      var ib :| ib in inbounds && ib.listen == Anywhere && ib.network == "tcp" && ib.port == port;
      var i :| 0 <= i < |inbounds| && inbounds[i] == ib;
      assert tuned[i] in tuned;
    }
  }

  lemma TunedFallback(inbounds: seq<Inbound>, sock: bool, sniff: bool, e: Entry, ib: Inbound)
    ensures ThroughFallback(TunedAll(inbounds, sock, sniff), e, ib) <==> ThroughFallback(inbounds, e, ib)
  {
    hide Tuned;
    var tuned := TunedAll(inbounds, sock, sniff);
    forall i | 0 <= i < |inbounds|
      ensures HandsOn(tuned[i], e, ib) <==> HandsOn(inbounds[i], e, ib)
    {
      TunedSame(inbounds[i], sock, sniff);
    }
    hide HandsOn;
    if front :| front in inbounds && HandsOn(front, e, ib) {
      var i :| 0 <= i < |inbounds| && inbounds[i] == front;
      assert tuned[i] in tuned;
    }
  }

  lemma TunedServedBy(inbounds: seq<Inbound>, sock: bool, sniff: bool, ib: Inbound, e: Entry, u: User, env: Server)
    ensures ServedBy(TunedAll(inbounds, sock, sniff), Tuned(ib, sock, sniff), e, u, env) <==>
      ServedBy(inbounds, ib, e, u, env)
  {
    hide Tuned, Owned, HandsOn, Proxied;
    TunedSame(ib, sock, sniff);
    TunedOwned(inbounds, sock, sniff, e.port);
    TunedFallback(inbounds, sock, sniff, e, ib);
    TunedParts(inbounds, ib, Tuned(ib, sock, sniff), e, u);
    TunedFallback(inbounds, sock, sniff, e, Tuned(ib, sock, sniff));
  }

  lemma TunedParts(inbounds: seq<Inbound>, a: Inbound, b: Inbound, e: Entry, u: User)
    requires b == a.(sockopt := b.sockopt, sniffing := b.sniffing)
    ensures Proxied(e, a) <==> Proxied(e, b)
    ensures Admits(a, e, u) <==> Admits(b, e, u)
    ensures ThroughFallback(inbounds, e, a) <==> ThroughFallback(inbounds, e, b)
  {
    hide Upstream;
    forall front: Inbound
      ensures HandsOn(front, e, a) <==> HandsOn(front, e, b)
    {
    }
    hide HandsOn;
  }

  /** Tuning the finished list changes nothing about who is served. */
  lemma TunedServed(inbounds: seq<Inbound>, sock: bool, sniff: bool, e: Entry, u: User, env: Server)
    ensures Served(TunedAll(inbounds, sock, sniff), e, u, env) <==> Served(inbounds, e, u, env)
  {
    hide Tuned, ServedBy;
    var tuned := TunedAll(inbounds, sock, sniff);
    forall i | 0 <= i < |inbounds|
      ensures ServedBy(tuned, tuned[i], e, u, env) <==> ServedBy(inbounds, inbounds[i], e, u, env)
    {
      TunedServedBy(inbounds, sock, sniff, inbounds[i], e, u, env);
    }
    if Served(inbounds, e, u, env) {
      var ib :| ib in inbounds && ServedBy(inbounds, ib, e, u, env);
      var i :| 0 <= i < |inbounds| && inbounds[i] == ib;
      assert tuned[i] in tuned;
    }
  }
}
