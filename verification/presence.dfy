/** Who the generated configuration lets in, and the gap between that and the `enabled` flag. */
module Presence {
  import opened Text
  import opened Users
  import opened SsKeys
  import opened Links
  import opened Inbounds
  import opened Agreement
  import opened Serving
  import opened SsAgreement

  predicate ClientsMention(clients: seq<Client>, uid: string) {
    exists c :: c in clients && c.email == uid
  }

  /** Some inbound has a client entry for the uid. */
  predicate Mentions(inbounds: seq<Inbound>, uid: string) {
    exists ib :: ib in inbounds && ClientsMention(ib.clients, uid)
  }

  predicate UserWith(users: seq<User>, p: User -> bool, uid: string) {
    exists u :: u in users && p(u) && u.uid == uid
  }

  lemma MentionsAppend(a: seq<Inbound>, b: seq<Inbound>, uid: string)
    ensures Mentions(a + b, uid) <==> Mentions(a, uid) || Mentions(b, uid)
  {
    hide ClientsMention;
    if Mentions(a, uid) {
      var ib :| ib in a && ClientsMention(ib.clients, uid);
      assert ib in a + b;
    }
    if Mentions(b, uid) {
      var ib :| ib in b && ClientsMention(ib.clients, uid);
      assert ib in a + b;
    }
  }

  /** A list of at most one inbound. */
  lemma MentionsOne(ibs: seq<Inbound>, clients: seq<Client>, uid: string)
    requires if clients == [] then ibs == [] else |ibs| == 1 && ibs[0].clients == clients
    ensures Mentions(ibs, uid) <==> ClientsMention(clients, uid)
  {
    if ClientsMention(clients, uid) {
      assert ibs[0] in ibs;
    }
  }

  lemma EntriesMention(users: seq<User>, p: User -> bool, f: User -> Client, uid: string)
    requires forall u :: f(u).email == u.uid
    ensures ClientsMention(Entries(Select(users, p), f), uid) <==> UserWith(users, p, uid)
  {
    var chosen := Select(users, p);
    if ClientsMention(Entries(chosen, f), uid) {
      var i :| 0 <= i < |chosen| && Entries(chosen, f)[i].email == uid;
      assert chosen[i] in chosen;
    }
    if UserWith(users, p, uid) {
      var u :| u in users && p(u) && u.uid == uid;
      SelectedEntry(chosen, f, u);
    }
  }

  lemma EnabledMention(users: seq<User>, protocol: string, uid: string)
    ensures ClientsMention(EnabledClients(users, protocol), uid) <==> UserWith(users, u => Enabled(u, protocol), uid)
  {
    EntriesMention(users, u => Enabled(u, protocol), u => MkClient(u, ""), uid);
  }

  lemma TcpMention(users: seq<User>, protocol: string, security: string, uid: string)
    ensures ClientsMention(TcpClients(users, protocol, security), uid) <==>
      UserWith(users, u => RawTcp(u, protocol, security), uid)
  {
    EntriesMention(users, u => RawTcp(u, protocol, security), u => MkClient(u, ""), uid);
  }

  lemma TrojanMention(users: seq<User>, uid: string)
    ensures ClientsMention(TrojanTcp(users), uid) <==> UserWith(users, u => RawTrojan(u), uid)
  {
    EntriesMention(users, u => RawTrojan(u), u => MkClient(u, ""), uid);
  }

  lemma RealityMention(users: seq<User>, s: Settings, uid: string)
    ensures ClientsMention(RealityClients(users, s), uid) <==> UserWith(users, u => RawTcp(u, "vless", "reality"), uid)
  {
    EntriesMention(users, u => RawTcp(u, "vless", "reality"), u => MkClient(u, FlowFor(s, "tcp", "reality")), uid);
  }

  lemma SsMention(sha: Hash, users: seq<User>, s: Settings, cipher: string, uid: string)
    ensures Mentions(SsInbounds(sha, users, s, cipher), uid) <==> UserWith(users, u => Enabled(u, "shadowsocks"), uid)
  {
    EntriesMention(users, u => LegacySs(u, s), u => LegacyClient(sha, u, s), uid);
    EntriesMention(users, u => ModernSs(u, s), u => ModernClient(sha, u, cipher), uid);
    MentionsOne(LegacyInbound(sha, users, s), LegacyClients(sha, users, s), uid);
    MentionsOne(ModernInbound(sha, users, s, cipher), ModernClients(sha, users, s, cipher), uid);
    MentionsAppend(LegacyInbound(sha, users, s), ModernInbound(sha, users, s, cipher), uid);
    hide LegacyInbound, ModernInbound, LegacyClients, ModernClients, Mentions, ClientsMention, SS_2022_METHODS,
      RawSsMethod;
    if UserWith(users, u => Enabled(u, "shadowsocks"), uid) {
      var u :| u in users && Enabled(u, "shadowsocks") && u.uid == uid;
      assert LegacySs(u, s) || ModernSs(u, s);
    }
  }

  lemma SharedMention(users: seq<User>, port: int, network: string, path: string, uid: string)
    ensures Mentions(SharedInbounds(users, port, network, path), uid) <==>
      UserWith(users, u => Enabled(u, "vless"), uid) || UserWith(users, u => Enabled(u, "vmess"), uid)
  {
    hide EnabledClients, Mentions, ClientsMention, UserWith;
    var vless, vmess := EnabledClients(users, "vless"), EnabledClients(users, "vmess");
    var a := Web("in-vless-" + network, port, "vless", vless, network, path);
    var b := Web("in-vmess-" + network, port, "vmess", vmess, network, path);
    MentionsOne(a, vless, uid);
    MentionsOne(b, vmess, uid);
    MentionsAppend(a, b, uid);
    EnabledMention(users, "vless", uid);
    EnabledMention(users, "vmess", uid);
  }

  lemma WsMention(users: seq<User>, env: Server, uid: string)
    ensures Mentions(WsInbounds(users, env), uid) <==>
      UserWith(users, u => Enabled(u, "vless"), uid) || UserWith(users, u => Enabled(u, "vmess"), uid) ||
      UserWith(users, u => Enabled(u, "trojan"), uid)
  {
    hide EnabledClients, Mentions, ClientsMention, UserWith;
    var vless, vmess := EnabledClients(users, "vless"), EnabledClients(users, "vmess");
    var trojan := EnabledClients(users, "trojan");
    var a := Ws("in-vless-ws", VLESS_WS_PORT, "vless", vless, "/vl-ws", env);
    var b := Ws("in-vmess-ws", VMESS_WS_PORT, "vmess", vmess, "/vm-ws", env);
    var c := Ws("in-trojan-ws", TROJAN_WS_PORT, "trojan", trojan, "/tr-ws", env);
    MentionsOne(a, vless, uid);
    MentionsOne(b, vmess, uid);
    MentionsOne(c, trojan, uid);
    MentionsAppend(a, b, uid);
    MentionsAppend(a + b, c, uid);
    EnabledMention(users, "vless", uid);
    EnabledMention(users, "vmess", uid);
    EnabledMention(users, "trojan", uid);
  }

  lemma WebMention(users: seq<User>, env: Server, uid: string)
    ensures Mentions(WebInbounds(users, env), uid) <==>
      UserWith(users, u => Enabled(u, "vless"), uid) || UserWith(users, u => Enabled(u, "vmess"), uid) ||
      UserWith(users, u => Enabled(u, "trojan"), uid)
  {
    hide WsInbounds, SharedInbounds, Mentions, UserWith;
    var ws := WsInbounds(users, env);
    var xhttp := SharedInbounds(users, XHTTP_PORT, "xhttp", "/xhttp");
    var upgrade := SharedInbounds(users, HTTPUPGRADE_PORT, "httpupgrade", "/hup");
    var grpc := SharedInbounds(users, GRPC_PORT, "grpc", "titan");
    WsMention(users, env, uid);
    SharedMention(users, XHTTP_PORT, "xhttp", "/xhttp", uid);
    SharedMention(users, HTTPUPGRADE_PORT, "httpupgrade", "/hup", uid);
    SharedMention(users, GRPC_PORT, "grpc", "titan", uid);
    MentionsAppend(ws, xhttp, uid);
    MentionsAppend(ws + xhttp, upgrade, uid);
    MentionsAppend(ws + xhttp + upgrade, grpc, uid);
  }

  // ---------------------------------------------------------------- raw TCP

  /** Raw-TCP users the configuration has an entry for; `enabled` is not asked. */
  predicate PresentRaw(u: User, env: Server) {
    var proxy := u.protocol == "vless" || u.protocol == "vmess";
    && u.transport == "tcp"
    && ((proxy && (u.security == "" || u.security == "none")) || (env.tlsReady && proxy && u.security == "tls") ||
        (env.tlsReady && u.protocol == "trojan") ||
        (env.realityPriv != "" && u.protocol == "vless" && u.security == "reality"))
  }

  lemma NoMention(uid: string)
    ensures !Mentions([], uid)
  {
  }

  lemma PlainTcpMention(users: seq<User>, uid: string)
    ensures Mentions(PlainTcpInbounds(users), uid) <==>
      UserWith(users, u => RawTcp(u, "vless", "none"), uid) || UserWith(users, u => RawTcp(u, "vmess", "none"), uid)
  {
    hide TcpClients, Mentions, ClientsMention, UserWith;
    var vless, vmess := TcpClients(users, "vless", "none"), TcpClients(users, "vmess", "none");
    var a := Raw("in-vless-tcp", TCP_VLESS_PORT, "vless", vless, "none");
    var b := Raw("in-vmess-tcp", TCP_VMESS_PORT, "vmess", vmess, "none");
    MentionsOne(a, vless, uid);
    MentionsOne(b, vmess, uid);
    MentionsAppend(a, b, uid);
    TcpMention(users, "vless", "none", uid);
    TcpMention(users, "vmess", "none", uid);
  }

  lemma TlsMention(users: seq<User>, env: Server, uid: string)
    ensures Mentions(TlsInbounds(users, env) + FallbackInbound(users, env), uid) <==>
      env.tlsReady &&
      (UserWith(users, u => RawTcp(u, "vless", "tls"), uid) || UserWith(users, u => RawTcp(u, "vmess", "tls"), uid) ||
       UserWith(users, u => RawTrojan(u), uid))
  {
    hide TcpClients, TrojanTcp, Mentions, ClientsMention, UserWith;
    var vless, vmess := TcpClients(users, "vless", "tls"), TcpClients(users, "vmess", "tls");
    var trojan := TrojanTcp(users);
    var direct := Raw("in-vless-tcp-tls", TCP_VLESS_TLS_PORT, "vless", vless, "tls");
    var a := if FallbackActive(env) then [] else direct;
    var b := Raw("in-vmess-tcp-tls", TCP_VMESS_TLS_PORT, "vmess", vmess, "tls");
    var c := Raw("in-trojan-tcp", TCP_TROJAN_PORT, "trojan", trojan, "tls");
    var d := FallbackInbound(users, env);
    NoMention(uid);
    MentionsOne(direct, vless, uid);
    MentionsOne(b, vmess, uid);
    MentionsOne(c, trojan, uid);
    if FallbackActive(env) {
      MentionsOne(d, vless, uid);
    }
    MentionsAppend(a, b, uid);
    MentionsAppend(a + b, c, uid);
    MentionsAppend(TlsInbounds(users, env), d, uid);
    TcpMention(users, "vless", "tls", uid);
    TcpMention(users, "vmess", "tls", uid);
    TrojanMention(users, uid);
  }

  lemma RealityInboundMention(users: seq<User>, s: Settings, env: Server, uid: string)
    ensures Mentions(RealityInbound(users, s, env), uid) <==>
      env.realityPriv != "" && UserWith(users, u => RawTcp(u, "vless", "reality"), uid)
  {
    hide RealityClients, Mentions, ClientsMention, UserWith;
    NoMention(uid);
    RealityMention(users, s, uid);
    if env.realityPriv != "" {
      MentionsOne(RealityInbound(users, s, env), RealityClients(users, s), uid);
    }
  }

  lemma HysteriaMention(users: seq<User>, env: Server, uid: string)
    ensures Mentions(Hysteria2Inbound(users, env), uid) <==>
      env.tlsReady && UserWith(users, u => Enabled(u, "hysteria2"), uid)
  {
    hide EnabledClients, Mentions, ClientsMention, UserWith;
    NoMention(uid);
    EnabledMention(users, "hysteria2", uid);
    if env.tlsReady {
      MentionsOne(Hysteria2Inbound(users, env), EnabledClients(users, "hysteria2"), uid);
    }
  }

  // ---------------------------------------------------------------- the whole configuration

  /** Users the configuration has an entry for. */
  predicate Present(u: User, env: Server) {
    || (u.enabled && (Tunnelled(u.protocol) || u.protocol == "shadowsocks"))
    || (u.enabled && u.protocol == "hysteria2" && env.tlsReady)
    || PresentRaw(u, env)
  }

  lemma GeneratedParts(sha: Hash, users: seq<User>, s: Settings, env: Server, cipher: string, uid: string)
    ensures Mentions(Generated(sha, users, s, env, cipher), uid) <==>
      || Mentions(WebInbounds(users, env), uid) || Mentions(SsInbounds(sha, users, s, cipher), uid)
      || Mentions(PlainTcpInbounds(users), uid) || Mentions(TlsInbounds(users, env) + FallbackInbound(users, env), uid)
      || Mentions(RealityInbound(users, s, env), uid) || Mentions(Hysteria2Inbound(users, env), uid)
  {
    hide WebInbounds, SsInbounds, PlainTcpInbounds, TlsInbounds, FallbackInbound, RealityInbound, Hysteria2Inbound,
      Mentions;
    var web, ss, plain := WebInbounds(users, env), SsInbounds(sha, users, s, cipher), PlainTcpInbounds(users);
    var tls, fallback := TlsInbounds(users, env), FallbackInbound(users, env);
    var reality, hysteria := RealityInbound(users, s, env), Hysteria2Inbound(users, env);
    ApiMention(uid);
    MentionsAppend([Api()], web, uid);
    MentionsAppend([Api()] + web, ss, uid);
    MentionsAppend(plain, tls, uid);
    MentionsAppend(plain + tls, fallback, uid);
    MentionsAppend(tls, fallback, uid);
    MentionsAppend(plain + tls + fallback, reality, uid);
    MentionsAppend(plain + tls + fallback + reality, hysteria, uid);
    MentionsAppend([Api()] + web + ss, plain + tls + fallback + reality + hysteria, uid);
  }

  lemma ApiMention(uid: string)
    ensures !Mentions([Api()], uid)
  {
  }

  /** The configuration mentions exactly the uids of present users. */
  lemma MentionedUsers(sha: Hash, users: seq<User>, s: Settings, env: Server, cipher: string, uid: string)
    ensures Mentions(Generated(sha, users, s, env, cipher), uid) <==> UserWith(users, u => Present(u, env), uid)
  {
    hide Generated, Mentions;
    GeneratedParts(sha, users, s, env, cipher, uid);
    WebMention(users, env, uid);
    SsMention(sha, users, s, cipher, uid);
    PlainTcpMention(users, uid);
    TlsMention(users, env, uid);
    RealityInboundMention(users, s, env, uid);
    HysteriaMention(users, env, uid);
    PresentKinds(users, env, uid);
  }

  lemma PresentKinds(users: seq<User>, env: Server, uid: string)
    ensures UserWith(users, u => Present(u, env), uid) <==>
      || UserWith(users, u => Enabled(u, "vless"), uid) || UserWith(users, u => Enabled(u, "vmess"), uid)
      || UserWith(users, u => Enabled(u, "trojan"), uid) || UserWith(users, u => Enabled(u, "shadowsocks"), uid)
      || (env.tlsReady && UserWith(users, u => Enabled(u, "hysteria2"), uid))
      || UserWith(users, u => RawTcp(u, "vless", "none"), uid) || UserWith(users, u => RawTcp(u, "vmess", "none"), uid)
      || (env.tlsReady &&
          (UserWith(users, u => RawTcp(u, "vless", "tls"), uid) ||
           UserWith(users, u => RawTcp(u, "vmess", "tls"), uid) || UserWith(users, u => RawTrojan(u), uid)))
      || (env.realityPriv != "" && UserWith(users, u => RawTcp(u, "vless", "reality"), uid))
  {
    forall u
      ensures Present(u, env) <==>
        || Enabled(u, "vless") || Enabled(u, "vmess") || Enabled(u, "trojan") || Enabled(u, "shadowsocks")
        || (env.tlsReady && Enabled(u, "hysteria2"))
        || RawTcp(u, "vless", "none") || RawTcp(u, "vmess", "none")
        || (env.tlsReady && (RawTcp(u, "vless", "tls") || RawTcp(u, "vmess", "tls") || RawTrojan(u)))
        || (env.realityPriv != "" && RawTcp(u, "vless", "reality"))
    {
    }
    hide RawTcp, RawTrojan, Present, Enabled;
    if UserWith(users, u => Present(u, env), uid) {
      var u :| u in users && Present(u, env) && u.uid == uid;
      assert u in users && u.uid == uid;
    }
  }

  /** Disabling takes a user out of the configuration exactly when the user is not on raw TCP:
      the raw-TCP client lists do not look at `enabled`. */
  lemma DisabledUsers(sha: Hash, users: seq<User>, s: Settings, env: Server, cipher: string, u: User)
    requires DistinctUids(users) && u in users && !u.enabled
    requires Tunnelled(u.protocol) && Normalized(u) && Equipped(u, env)
    ensures Mentions(Generated(sha, users, s, env, cipher), u.uid) <==> u.transport == "tcp"
  {
    hide Generated, Mentions, Normalized, Tunnelled, DistinctUids, Present;
    MentionedUsers(sha, users, s, env, cipher, u.uid);
    OnlyUser(users, env, u);
    PresentDisabled(u, env);
  }

  lemma OnlyUser(users: seq<User>, env: Server, u: User)
    requires DistinctUids(users) && u in users
    ensures UserWith(users, v => Present(v, env), u.uid) <==> Present(u, env)
  {
    hide Present, DistinctUids;
    if UserWith(users, v => Present(v, env), u.uid) {
      var v :| v in users && Present(v, env) && v.uid == u.uid;
      SameUser(users, u, v);
    }
  }

  lemma PresentDisabled(u: User, env: Server)
    requires !u.enabled && Tunnelled(u.protocol) && Normalized(u) && Equipped(u, env)
    ensures Present(u, env) <==> u.transport == "tcp"
  {
    hide Normalized, TransportFor, SecurityOf, Lower;
    NormalFields(u, AnySettings());
  }
}
