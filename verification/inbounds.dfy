/** The server side (app/xray.py, app/tuning.py): which inbound of the generated configuration
    holds which user. Ports are the defaults of app/config.py. */
module Inbounds {
  import opened Text
  import opened Users
  import opened SsKeys

  /** One `settings.clients[]` entry; `cipher` is the per-client method of a legacy Shadowsocks user. */
  datatype Client = Client(cred: string, email: string, flow: string, cipher: string)

  datatype Listen = Loopback | Anywhere

  /** Where the fallback inbound hands a request with this path, and the PROXY protocol version it
      announces the client with (0 for none). */
  datatype Fallback = Fallback(path: string, dest: int, xver: nat)

  /** An inbound; `path` is the WebSocket, XHTTP or HTTPUpgrade path or the gRPC service name, and
      `network` is "" where the source writes no `streamSettings`. An inbound with `acceptProxy` closes
      every connection that does not start with a PROXY header. */
  datatype Inbound = Inbound(
    tag: string, listen: Listen, port: int, protocol: string, clients: seq<Client>,
    network: string, security: string, path: string, cipher: string,
    serverNames: seq<string>, shortIds: seq<string>, acceptProxy: bool, fallbacks: seq<Fallback>,
    sockopt: bool, sniffing: bool)

  /** What the configuration depends on besides users and settings, and the public port at which
      nginx is reached. */
  datatype Server = Server(
    nginxPort: nat,
    tlsReady: bool,
    fallbackPort: nat,
    realityPriv: string,
    serverNames: seq<string>,
    shortIds: seq<string>)

  const API_PORT := 10085
  const VLESS_WS_PORT := 10001
  const VMESS_WS_PORT := 10002
  const TROJAN_WS_PORT := 10003
  const XHTTP_PORT := 10004
  const GRPC_PORT := 10005
  const SS_PORT := 10006
  const TCP_VLESS_PORT := 10007
  const TCP_VLESS_TLS_PORT := 10008
  const TCP_VLESS_REALITY_PORT := 10009
  const TCP_VMESS_PORT := 10010
  const TCP_VMESS_TLS_PORT := 10011
  const TCP_TROJAN_PORT := 10012
  const HTTPUPGRADE_PORT := 10013
  const SS_2022_PORT := 10014
  const HY2_PORT := 443

  predicate FallbackActive(env: Server) {
    env.fallbackPort != 0 && env.tlsReady
  }

  /** `[u for u in users if p(u)]` */
  function Select(users: seq<User>, p: User -> bool): (r: seq<User>)
    ensures forall u :: u in r <==> u in users && p(u)
  {
    if users == [] then []
    else (if p(users[0]) then [users[0]] else []) + Select(users[1..], p)
  }

  /** `[f(u) for u in users]` */
  function Entries(users: seq<User>, f: User -> Client): (r: seq<Client>)
    ensures |r| == |users|
    ensures forall i :: 0 <= i < |users| ==> r[i] == f(users[i])
  {
    seq(|users|, i requires 0 <= i < |users| => f(users[i]))
  }

  /** `mk_client` */
  function MkClient(u: User, flow: string): Client {
    Client(u.uuid, u.uid, flow, "")
  }

  function Clients(users: seq<User>, p: User -> bool): seq<Client> {
    Entries(Select(users, p), u => MkClient(u, ""))
  }

  function EnabledClients(users: seq<User>, protocol: string): seq<Client> {
    Clients(users, u => Enabled(u, protocol))
  }

  // ---------------------------------------------------------------- who goes where

  predicate Enabled(u: User, protocol: string) {
    u.enabled && u.protocol == protocol
  }

  /** `(u.get("security") or "none") == security`, for raw-TCP users */
  predicate RawTcp(u: User, protocol: string, security: string) {
    u.transport == "tcp" && u.protocol == protocol && Or(u.security, "none") == security
  }

  predicate RawTrojan(u: User) {
    u.transport == "tcp" && u.protocol == "trojan"
  }

  /** The method as the inbound code reads it: neither lower-cased nor checked. */
  function RawSsMethod(u: User, s: Settings): string {
    Or(u.ssMethod, Or(s.ssMethod, DEFAULT_SS_METHOD))
  }

  predicate LegacySs(u: User, s: Settings) {
    Enabled(u, "shadowsocks") && RawSsMethod(u, s) !in SS_2022_METHODS
  }

  predicate ModernSs(u: User, s: Settings) {
    Enabled(u, "shadowsocks") && RawSsMethod(u, s) in SS_2022_METHODS
  }

  // ---------------------------------------------------------------- the inbounds

  function Plain(tag: string, listen: Listen, port: int, protocol: string, clients: seq<Client>,
                 network: string, security: string, path: string): Inbound {
    Inbound(tag, listen, port, protocol, clients, network, security, path, "", [], [], false, [], false, false)
  }

  function Api(): Inbound {
    Plain("api", Loopback, API_PORT, "dokodemo-door", [], "", "", "")
  }

  /** An inbound behind nginx, present when it has clients. */
  function Web(tag: string, port: int, protocol: string, clients: seq<Client>, network: string,
               path: string): seq<Inbound> {
    if clients == [] then [] else [Plain(tag, Loopback, port, protocol, clients, network, "none", path)]
  }

  function Raw(tag: string, port: int, protocol: string, clients: seq<Client>, security: string): seq<Inbound> {
    if clients == [] then [] else [Plain(tag, Anywhere, port, protocol, clients, "tcp", security, "")]
  }

  /** A WebSocket inbound: with the single-port fallback on, it expects the PROXY protocol. */
  function Ws(tag: string, port: int, protocol: string, clients: seq<Client>, path: string, env: Server): seq<Inbound> {
    if clients == [] then []
    else [Plain(tag, Loopback, port, protocol, clients, "ws", "none", path).(acceptProxy := FallbackActive(env))]
  }

  function WsInbounds(users: seq<User>, env: Server): seq<Inbound> {
    Ws("in-vless-ws", VLESS_WS_PORT, "vless", EnabledClients(users, "vless"), "/vl-ws", env) +
    Ws("in-vmess-ws", VMESS_WS_PORT, "vmess", EnabledClients(users, "vmess"), "/vm-ws", env) +
    Ws("in-trojan-ws", TROJAN_WS_PORT, "trojan", EnabledClients(users, "trojan"), "/tr-ws", env)
  }

  /** The VLESS and VMess inbounds of one transport share a port. */
  function SharedInbounds(users: seq<User>, port: int, network: string, path: string): seq<Inbound> {
    Web("in-vless-" + network, port, "vless", EnabledClients(users, "vless"), network, path) +
    Web("in-vmess-" + network, port, "vmess", EnabledClients(users, "vmess"), network, path)
  }

  function WebInbounds(users: seq<User>, env: Server): seq<Inbound> {
    WsInbounds(users, env) + SharedInbounds(users, XHTTP_PORT, "xhttp", "/xhttp") +
    SharedInbounds(users, HTTPUPGRADE_PORT, "httpupgrade", "/hup") + SharedInbounds(users, GRPC_PORT, "grpc", "titan")
  }

  function LegacyClient(sha: Hash, u: User, s: Settings): Client {
    Client(PskInbound(sha, u.uuid, RawSsMethod(u, s)), u.uid, "", RawSsMethod(u, s))
  }

  function ModernClient(sha: Hash, u: User, cipher: string): Client {
    Client(PskInbound(sha, u.uuid, cipher), u.uid, "", "")
  }

  function LegacyUsers(users: seq<User>, s: Settings): seq<User> {
    Select(users, u => LegacySs(u, s))
  }

  function ModernUsers(users: seq<User>, s: Settings): seq<User> {
    Select(users, u => ModernSs(u, s))
  }

  function LegacyClients(sha: Hash, users: seq<User>, s: Settings): seq<Client> {
    Entries(LegacyUsers(users, s), u => LegacyClient(sha, u, s))
  }

  function ModernClients(sha: Hash, users: seq<User>, s: Settings, cipher: string): seq<Client> {
    Entries(ModernUsers(users, s), u => ModernClient(sha, u, cipher))
  }

  function LegacyInbound(sha: Hash, users: seq<User>, s: Settings): seq<Inbound> {
    var clients := LegacyClients(sha, users, s);
    if clients == [] then []
    else [Plain("in-ss", Loopback, SS_PORT, "shadowsocks", clients, "", "", "")]
  }

  function ModernInbound(sha: Hash, users: seq<User>, s: Settings, cipher: string): seq<Inbound> {
    var clients := ModernClients(sha, users, s, cipher);
    if clients == [] then []
    else [Plain("in-ss-2022", Loopback, SS_2022_PORT, "shadowsocks", clients, "", "", "").(cipher := cipher)]
  }

  function SsInbounds(sha: Hash, users: seq<User>, s: Settings, cipher: string): seq<Inbound> {
    LegacyInbound(sha, users, s) + ModernInbound(sha, users, s, cipher)
  }

  function TcpClients(users: seq<User>, protocol: string, security: string): seq<Client> {
    Clients(users, u => RawTcp(u, protocol, security))
  }

  function TrojanTcp(users: seq<User>): seq<Client> {
    Clients(users, u => RawTrojan(u))
  }

  function RealityClients(users: seq<User>, s: Settings): seq<Client> {
    Entries(Select(users, u => RawTcp(u, "vless", "reality")), u => MkClient(u, FlowFor(s, "tcp", "reality")))
  }

  function PlainTcpInbounds(users: seq<User>): seq<Inbound> {
    Raw("in-vless-tcp", TCP_VLESS_PORT, "vless", TcpClients(users, "vless", "none"), "none") +
    Raw("in-vmess-tcp", TCP_VMESS_PORT, "vmess", TcpClients(users, "vmess", "none"), "none")
  }

  function TlsInbounds(users: seq<User>, env: Server): seq<Inbound> {
    if !env.tlsReady then []
    else
      (if FallbackActive(env) then []
       else Raw("in-vless-tcp-tls", TCP_VLESS_TLS_PORT, "vless", TcpClients(users, "vless", "tls"), "tls")) +
      Raw("in-vmess-tcp-tls", TCP_VMESS_TLS_PORT, "vmess", TcpClients(users, "vmess", "tls"), "tls") +
      Raw("in-trojan-tcp", TCP_TROJAN_PORT, "trojan", TrojanTcp(users), "tls")
  }

  /** The three WebSocket paths, each announced with the PROXY protocol. */
  function WsFallbacks(): seq<Fallback> {
    [Fallback("/vl-ws", VLESS_WS_PORT, 1), Fallback("/vm-ws", VMESS_WS_PORT, 1), Fallback("/tr-ws", TROJAN_WS_PORT, 1)]
  }

  function FallbackInbound(users: seq<User>, env: Server): seq<Inbound> {
    if !FallbackActive(env) then []
    else
      var clients := TcpClients(users, "vless", "tls");
      if clients == [] then []
      else [Plain("in-vless-fallback", Anywhere, env.fallbackPort, "vless", clients, "tcp", "tls", "")
            .(fallbacks := WsFallbacks())]
  }

  function RealityInbound(users: seq<User>, s: Settings, env: Server): seq<Inbound> {
    var clients := RealityClients(users, s);
    if clients == [] || env.realityPriv == "" then []
    else [Plain("in-vless-reality", Anywhere, TCP_VLESS_REALITY_PORT, "vless", clients, "tcp", "reality", "")
          .(serverNames := env.serverNames, shortIds := env.shortIds)]
  }

  function Hysteria2Inbound(users: seq<User>, env: Server): seq<Inbound> {
    var clients := EnabledClients(users, "hysteria2");
    if clients == [] || !env.tlsReady then []
    else [Plain("in-hysteria2", Anywhere, HY2_PORT, "hysteria", clients, "hysteria", "tls", "")]
  }

  /** The inbounds for a list of users. `cipher` is the one Shadowsocks-2022 method the code picks. */
  function Generated(sha: Hash, users: seq<User>, s: Settings, env: Server, cipher: string): seq<Inbound> {
    [Api()] + WebInbounds(users, env) + SsInbounds(sha, users, s, cipher) +
    (PlainTcpInbounds(users) + TlsInbounds(users, env) + FallbackInbound(users, env) +
     RealityInbound(users, s, env) + Hysteria2Inbound(users, env))
  }

  /** The methods the 2022 users ask for: the set the code takes an arbitrary element of. */
  function Methods2022(users: seq<User>, s: Settings): set<string> {
    set u | u in users && ModernSs(u, s) :: RawSsMethod(u, s)
  }

  predicate Picked(users: seq<User>, s: Settings, cipher: string) {
    Methods2022(users, s) == {} || cipher in Methods2022(users, s)
  }

  // ---------------------------------------------------------------- the code's own form

  /** `generate_xray_config`, as far as its inbounds go: the list grows block by block. */
  method GenerateInbounds(sha: Hash, users: seq<User>, s: Settings, env: Server, cipher: string)
    returns (inbounds: seq<Inbound>)
    ensures inbounds == Generated(sha, users, s, env, cipher)
  {
    hide WsInbounds, SharedInbounds, SsInbounds, PlainTcpInbounds, TlsInbounds, FallbackInbound, RealityInbound,
      Hysteria2Inbound;
    inbounds := [Api()];
    var ws := WsBlocks(users, env);
    var xhttp := SharedBlocks(users, XHTTP_PORT, "xhttp", "/xhttp");
    var upgrade := SharedBlocks(users, HTTPUPGRADE_PORT, "httpupgrade", "/hup");
    var grpc := SharedBlocks(users, GRPC_PORT, "grpc", "titan");
    inbounds := inbounds + (ws + xhttp + upgrade + grpc);
    var ss := SsBlocks(sha, users, s, cipher);
    inbounds := inbounds + ss;
    var plain := PlainTcpBlocks(users);
    var tls := TlsBlocks(users, env);
    var last := LastBlocks(users, s, env);
    inbounds := inbounds + (plain + tls + last);
    assert plain + tls + last ==
      plain + tls + FallbackInbound(users, env) + RealityInbound(users, s, env) + Hysteria2Inbound(users, env);
  }

  method WsBlocks(users: seq<User>, env: Server) returns (out: seq<Inbound>)
    ensures out == WsInbounds(users, env)
  {
    hide EnabledClients;
    var vless, vmess := EnabledClients(users, "vless"), EnabledClients(users, "vmess");
    var trojan := EnabledClients(users, "trojan");
    var proxy := FallbackActive(env);
    out := [];
    if vless != [] {
      out := out + [Plain("in-vless-ws", Loopback, VLESS_WS_PORT, "vless", vless, "ws", "none", "/vl-ws")
                    .(acceptProxy := proxy)];
    }
    if vmess != [] {
      out := out + [Plain("in-vmess-ws", Loopback, VMESS_WS_PORT, "vmess", vmess, "ws", "none", "/vm-ws")
                    .(acceptProxy := proxy)];
    }
    if trojan != [] {
      out := out + [Plain("in-trojan-ws", Loopback, TROJAN_WS_PORT, "trojan", trojan, "ws", "none", "/tr-ws")
                    .(acceptProxy := proxy)];
    }
  }

  method SharedBlocks(users: seq<User>, port: int, network: string, path: string) returns (out: seq<Inbound>)
    ensures out == SharedInbounds(users, port, network, path)
  {
    hide EnabledClients;
    var vless, vmess := EnabledClients(users, "vless"), EnabledClients(users, "vmess");
    out := [];
    if vless != [] {
      out := out + [Plain("in-vless-" + network, Loopback, port, "vless", vless, network, "none", path)];
    }
    if vmess != [] {
      out := out + [Plain("in-vmess-" + network, Loopback, port, "vmess", vmess, network, "none", path)];
    }
  }

  method SsBlocks(sha: Hash, users: seq<User>, s: Settings, cipher: string) returns (out: seq<Inbound>)
    ensures out == SsInbounds(sha, users, s, cipher)
  {
    hide LegacyClients, ModernClients;
    var legacy, modern := LegacyClients(sha, users, s), ModernClients(sha, users, s, cipher);
    out := [];
    if legacy != [] {
      out := out + [Plain("in-ss", Loopback, SS_PORT, "shadowsocks", legacy, "", "", "")];
    }
    if modern != [] {
      out := out + [Plain("in-ss-2022", Loopback, SS_2022_PORT, "shadowsocks", modern, "", "", "").(cipher := cipher)];
    }
  }

  method PlainTcpBlocks(users: seq<User>) returns (out: seq<Inbound>)
    ensures out == PlainTcpInbounds(users)
  {
    hide TcpClients;
    var vless, vmess := TcpClients(users, "vless", "none"), TcpClients(users, "vmess", "none");
    out := [];
    if vless != [] {
      out := out + [Plain("in-vless-tcp", Anywhere, TCP_VLESS_PORT, "vless", vless, "tcp", "none", "")];
    }
    if vmess != [] {
      out := out + [Plain("in-vmess-tcp", Anywhere, TCP_VMESS_PORT, "vmess", vmess, "tcp", "none", "")];
    }
  }

  method TlsBlocks(users: seq<User>, env: Server) returns (out: seq<Inbound>)
    ensures out == TlsInbounds(users, env)
  {
    hide TcpClients, TrojanTcp;
    var vless, vmess := TcpClients(users, "vless", "tls"), TcpClients(users, "vmess", "tls");
    var trojan := TrojanTcp(users);
    out := [];
    if env.tlsReady {
      if vless != [] && !FallbackActive(env) {
        out := out + [Plain("in-vless-tcp-tls", Anywhere, TCP_VLESS_TLS_PORT, "vless", vless, "tcp", "tls", "")];
      }
      if vmess != [] {
        out := out + [Plain("in-vmess-tcp-tls", Anywhere, TCP_VMESS_TLS_PORT, "vmess", vmess, "tcp", "tls", "")];
      }
      if trojan != [] {
        out := out + [Plain("in-trojan-tcp", Anywhere, TCP_TROJAN_PORT, "trojan", trojan, "tcp", "tls", "")];
      }
    }
  }

  method LastBlocks(users: seq<User>, s: Settings, env: Server) returns (out: seq<Inbound>)
    ensures out == FallbackInbound(users, env) + RealityInbound(users, s, env) + Hysteria2Inbound(users, env)
  {
    hide TcpClients, RealityClients, EnabledClients;
    var tls, reality := TcpClients(users, "vless", "tls"), RealityClients(users, s);
    var hysteria := EnabledClients(users, "hysteria2");
    out := [];
    if FallbackActive(env) && tls != [] {
      out := out + [Plain("in-vless-fallback", Anywhere, env.fallbackPort, "vless", tls, "tcp", "tls", "")
                    .(fallbacks := WsFallbacks())];
    }
    if reality != [] && env.realityPriv != "" {
      out := out + [Plain("in-vless-reality", Anywhere, TCP_VLESS_REALITY_PORT, "vless", reality, "tcp", "reality", "")
                    .(serverNames := env.serverNames, shortIds := env.shortIds)];
    }
    if hysteria != [] && env.tlsReady {
      out := out + [Plain("in-hysteria2", Anywhere, HY2_PORT, "hysteria", hysteria, "hysteria", "tls", "")];
    }
  }

  const UDP_ONLY_NETWORKS: set<string> := {"hysteria", "utp", "kcp", "mkcp"}
  const SNIFFED: set<string> := {"vless", "vmess", "trojan", "shadowsocks"}

  /** An inbound after `apply_to_inbounds`: socket options and sniffing are all it may gain, and an
      inbound without stream settings or over UDP gains nothing. */
  function Tuned(ib: Inbound, sock: bool, sniff: bool): Inbound {
    if ib.network == "" || Lower(ib.network) in UDP_ONLY_NETWORKS then ib
    else ib.(sockopt := ib.sockopt || sock, sniffing := ib.sniffing || (sniff && ib.protocol in SNIFFED))
  }

  /** The keys say what is gained: socket options and sniffing each only if asked for, never without
      stream settings or over UDP, and sniffing only for the four proxy protocols. */
  lemma TunedExactly(ib: Inbound, sock: bool, sniff: bool)
    requires !ib.sockopt && !ib.sniffing
    ensures var t, tcp := Tuned(ib, sock, sniff), ib.network in {"tcp", "ws", "xhttp", "grpc", "httpupgrade"};
      && t == ib.(sockopt := t.sockopt, sniffing := t.sniffing)
      && (tcp ==> t.sockopt == sock)
      && (tcp && ib.protocol in {"vless", "vmess", "trojan", "shadowsocks"} ==> t.sniffing == sniff)
      && (ib.protocol !in {"vless", "vmess", "trojan", "shadowsocks"} ==> !t.sniffing)
      && (ib.network == "" || ib.network == "hysteria" ==> t == ib)
  {
    if ib.network in {"tcp", "ws", "xhttp", "grpc", "httpupgrade", "hysteria"} {
      LowerNetworks(ib.network);
    }
    hide Lower;
  }

  lemma LowerNetworks(network: string)
    requires network in {"tcp", "ws", "xhttp", "grpc", "httpupgrade", "hysteria"}
    ensures Lower(network) == network
  {
  }

  /** `tuning.apply_to_inbounds`, in place. */
  method ApplyToInbounds(inbounds: array<Inbound>, sock: bool, sniff: bool)
    modifies inbounds
    ensures forall i :: 0 <= i < inbounds.Length ==> inbounds[i] == Tuned(old(inbounds[i]), sock, sniff)
  {
    for i := 0 to inbounds.Length
      invariant forall j :: 0 <= j < i ==> inbounds[j] == Tuned(old(inbounds[j]), sock, sniff)
      invariant forall j :: i <= j < inbounds.Length ==> inbounds[j] == old(inbounds[j])
    {
      var ib := inbounds[i];
      if ib.network != "" && Lower(ib.network) !in UDP_ONLY_NETWORKS {
        if sock {
          inbounds[i] := inbounds[i].(sockopt := true);
        }
        if sniff && ib.protocol in SNIFFED {
          inbounds[i] := inbounds[i].(sniffing := true);
        }
      }
    }
  }

  /** All inbounds after `apply_to_inbounds`. */
  function TunedAll(inbounds: seq<Inbound>, sock: bool, sniff: bool): (r: seq<Inbound>)
    ensures |r| == |inbounds|
    ensures forall i :: 0 <= i < |inbounds| ==> r[i] == Tuned(inbounds[i], sock, sniff)
  {
    seq(|inbounds|, i requires 0 <= i < |inbounds| => Tuned(inbounds[i], sock, sniff))
  }

  /** `generate_xray_config` to its end: the finished list is tuned in place. `sock` and `sniff` say
      whether the settings ask for socket options and for sniffing. */
  method GenerateConfig(sha: Hash, users: seq<User>, s: Settings, env: Server, cipher: string, sock: bool, sniff: bool)
    returns (inbounds: array<Inbound>)
    ensures fresh(inbounds)
    ensures inbounds[..] == TunedAll(Generated(sha, users, s, env, cipher), sock, sniff)
  {
    hide Generated, Tuned;
    var list := GenerateInbounds(sha, users, s, env, cipher);
    inbounds := new Inbound[|list|](i requires 0 <= i < |list| => list[i]);
    ApplyToInbounds(inbounds, sock, sniff);
  }

  // ---------------------------------------------------------------- finding a user's entry

  lemma EnabledEntry(users: seq<User>, protocol: string, u: User)
    requires u in users && Enabled(u, protocol)
    ensures MkClient(u, "") in EnabledClients(users, protocol)
  {
    ClientEntry(users, u' => Enabled(u', protocol), u);
  }

  lemma ClientEntry(users: seq<User>, p: User -> bool, u: User)
    requires u in users && p(u)
    ensures MkClient(u, "") in Clients(users, p)
  {
    SelectedEntry(Select(users, p), v => MkClient(v, ""), u);
  }

  lemma SelectedEntry(users: seq<User>, f: User -> Client, u: User)
    requires u in users
    ensures f(u) in Entries(users, f)
  {
    var i :| 0 <= i < |users| && users[i] == u;
    assert Entries(users, f)[i] == f(u);
  }
}
