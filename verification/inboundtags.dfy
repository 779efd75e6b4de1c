/** No two inbounds of the generated configuration share a tag, which Xray would refuse. */
module InboundTags {
  import opened Users
  import opened SsKeys
  import opened Inbounds

  predicate Apart(inbounds: seq<Inbound>) {
    forall i, j :: 0 <= i < j < |inbounds| ==> inbounds[i].tag != inbounds[j].tag
  }

  predicate From(inbounds: seq<Inbound>, tags: set<string>) {
    forall i :: 0 <= i < |inbounds| ==> inbounds[i].tag in tags
  }

  lemma Joined(a: seq<Inbound>, s: set<string>, b: seq<Inbound>, t: set<string>)
    requires Apart(a) && From(a, s) && Apart(b) && From(b, t) && s !! t
    ensures Apart(a + b) && From(a + b, s + t)
  {
    var all := a + b;
    forall i, j | 0 <= i < j < |all|
      ensures all[i].tag != all[j].tag
    {
      if i < |a| <= j {
        assert a[i].tag in s && b[j - |a|].tag in t;
      }
    }
  }

  lemma WsTags(users: seq<User>, env: Server)
    ensures Apart(WsInbounds(users, env))
    ensures From(WsInbounds(users, env), {"in-vless-ws", "in-vmess-ws", "in-trojan-ws"})
  {
    hide EnabledClients, FallbackActive;
    var vless, vmess := EnabledClients(users, "vless"), EnabledClients(users, "vmess");
    var a := Ws("in-vless-ws", VLESS_WS_PORT, "vless", vless, "/vl-ws", env);
    var b := Ws("in-vmess-ws", VMESS_WS_PORT, "vmess", vmess, "/vm-ws", env);
    var c := Ws("in-trojan-ws", TROJAN_WS_PORT, "trojan", EnabledClients(users, "trojan"), "/tr-ws", env);
    Joined(a, {"in-vless-ws"}, b, {"in-vmess-ws"});
    Joined(a + b, {"in-vless-ws"} + {"in-vmess-ws"}, c, {"in-trojan-ws"});
  }

  lemma SharedTags(users: seq<User>, port: int, network: string, path: string, vless: string, vmess: string)
    requires vless == "in-vless-" + network && vmess == "in-vmess-" + network && vless != vmess
    ensures var list := SharedInbounds(users, port, network, path); Apart(list) && From(list, {vless, vmess})
  {
    hide EnabledClients;
  }

  lemma WebTags(users: seq<User>, env: Server)
    ensures Apart(WebInbounds(users, env))
    ensures From(WebInbounds(users, env), {"in-vless-ws", "in-vmess-ws", "in-trojan-ws"} +
      {"in-vless-xhttp", "in-vmess-xhttp"} + {"in-vless-httpupgrade", "in-vmess-httpupgrade"} +
      {"in-vless-grpc", "in-vmess-grpc"})
  {
    hide WsInbounds, SharedInbounds, Apart, From;
    var ws, xhttp := WsInbounds(users, env), SharedInbounds(users, XHTTP_PORT, "xhttp", "/xhttp");
    var upgrade := SharedInbounds(users, HTTPUPGRADE_PORT, "httpupgrade", "/hup");
    var grpc := SharedInbounds(users, GRPC_PORT, "grpc", "titan");
    WsTags(users, env);
    SharedTags(users, XHTTP_PORT, "xhttp", "/xhttp", "in-vless-xhttp", "in-vmess-xhttp");
    SharedTags(users, HTTPUPGRADE_PORT, "httpupgrade", "/hup", "in-vless-httpupgrade", "in-vmess-httpupgrade");
    SharedTags(users, GRPC_PORT, "grpc", "titan", "in-vless-grpc", "in-vmess-grpc");
    var t0, t1 := {"in-vless-ws", "in-vmess-ws", "in-trojan-ws"}, {"in-vless-xhttp", "in-vmess-xhttp"};
    var t2 := {"in-vless-httpupgrade", "in-vmess-httpupgrade"};
    Joined(ws, t0, xhttp, t1);
    Joined(ws + xhttp, t0 + t1, upgrade, t2);
    Joined(ws + xhttp + upgrade, t0 + t1 + t2, grpc, {"in-vless-grpc", "in-vmess-grpc"});
  }

  lemma SsTags(sha: Hash, users: seq<User>, s: Settings, cipher: string)
    ensures var list := SsInbounds(sha, users, s, cipher); Apart(list) && From(list, {"in-ss", "in-ss-2022"})
  {
    hide LegacyClients, ModernClients;
  }

  lemma PlainTcpTags(users: seq<User>)
    ensures Apart(PlainTcpInbounds(users)) && From(PlainTcpInbounds(users), {"in-vless-tcp", "in-vmess-tcp"})
  {
    hide TcpClients;
  }

  lemma TlsTags(users: seq<User>, env: Server)
    ensures Apart(TlsInbounds(users, env))
    ensures From(TlsInbounds(users, env), {"in-vless-tcp-tls", "in-vmess-tcp-tls", "in-trojan-tcp"})
  {
    hide TcpClients, TrojanTcp, FallbackActive;
  }

  lemma LastTags(users: seq<User>, s: Settings, env: Server)
    ensures var list := FallbackInbound(users, env) + RealityInbound(users, s, env) + Hysteria2Inbound(users, env);
      Apart(list) && From(list, {"in-vless-fallback", "in-vless-reality", "in-hysteria2"})
  {
    hide TcpClients, RealityClients, EnabledClients, FallbackActive, WsFallbacks;
    var a, b, c := FallbackInbound(users, env), RealityInbound(users, s, env), Hysteria2Inbound(users, env);
    Joined(a, {"in-vless-fallback"}, b, {"in-vless-reality"});
    Joined(a + b, {"in-vless-fallback"} + {"in-vless-reality"}, c, {"in-hysteria2"});
  }

  /** The tags of the whole configuration are pairwise different, for all users and settings. */
  lemma TagsApart(sha: Hash, users: seq<User>, s: Settings, env: Server, cipher: string)
    ensures Apart(Generated(sha, users, s, env, cipher))
  {
    hide WebInbounds, SsInbounds, PlainTcpInbounds, TlsInbounds, FallbackInbound, RealityInbound, Hysteria2Inbound,
      Apart, From;
    var web, ss, plain := WebInbounds(users, env), SsInbounds(sha, users, s, cipher), PlainTcpInbounds(users);
    var tls := TlsInbounds(users, env);
    var last := FallbackInbound(users, env) + RealityInbound(users, s, env) + Hysteria2Inbound(users, env);
    var webTags := {"in-vless-ws", "in-vmess-ws", "in-trojan-ws"} + {"in-vless-xhttp", "in-vmess-xhttp"} +
      {"in-vless-httpupgrade", "in-vmess-httpupgrade"} + {"in-vless-grpc", "in-vmess-grpc"};
    var ssTags, plainTags := {"in-ss", "in-ss-2022"}, {"in-vless-tcp", "in-vmess-tcp"};
    var tlsTags := {"in-vless-tcp-tls", "in-vmess-tcp-tls", "in-trojan-tcp"};
    var lastTags := {"in-vless-fallback", "in-vless-reality", "in-hysteria2"};
    ApiTags();
    WebTags(users, env);
    SsTags(sha, users, s, cipher);
    PlainTcpTags(users);
    TlsTags(users, env);
    LastTags(users, s, env);
    Joined([Api()], {"api"}, web, webTags);
    Joined([Api()] + web, {"api"} + webTags, ss, ssTags);
    Joined(plain, plainTags, tls, tlsTags);
    Joined(plain + tls, plainTags + tlsTags, last, lastTags);
    Joined([Api()] + web + ss, {"api"} + webTags + ssTags, plain + tls + last, plainTags + tlsTags + lastTags);
    assert plain + tls + last ==
      plain + tls + FallbackInbound(users, env) + RealityInbound(users, s, env) + Hysteria2Inbound(users, env);
  }

  lemma ApiTags()
    ensures Apart([Api()]) && From([Api()], {"api"})
  {
  }
}
