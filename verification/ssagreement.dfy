/** Shadowsocks links against the Shadowsocks inbounds: exactly when they agree on port, method and
    key, and that no such inbound can be reached from outside whether they agree or not. */
module SsAgreement {
  import opened Text
  import opened Base64
  import opened Users
  import opened SsKeys
  import opened Links
  import opened Parser
  import opened LinkReading
  import opened ShadowsocksLinks
  import opened Inbounds
  import opened Agreement
  import Utf8
  import Serving
  import VmessJson

  /** The inbound and the link name the same port and method, and their keys are the same bytes
      (2022 methods) or the same text (legacy methods). */
  predicate SsAgreesWith(ib: Inbound, e: Entry, u: User) {
    && ib.protocol == "shadowsocks" && e.kind == "shadowsocks" && e.port == ib.port
    && exists c :: c in ib.clients && c.email == u.uid && c.flow == "" && SameSecret(ib, c, e)
  }

  predicate SameSecret(ib: Inbound, c: Client, e: Entry) {
    if ib.cipher != "" then
      c.cipher == "" && e.cipher == ib.cipher && DecodeUrl(e.password + Padding(|e.password|)) == Decode64(c.cred)
    else e.cipher == c.cipher && e.password == c.cred
  }

  predicate SsAgrees(inbounds: seq<Inbound>, e: Entry, u: User) {
    exists ib :: ib in inbounds && SsAgreesWith(ib, e, u)
  }

  /** Some inbound agrees with what the user's link says. */
  predicate SsLinkAgrees(sha: Hash, host: string, users: seq<User>, u: User, s: Settings, env: Server, cipher: string) {
    SsAgrees(Generated(sha, users, s, env, cipher), SsLinkEntry(sha, host, EndpointPort(u, s, env), u, s), u)
  }

  predicate DistinctUids(users: seq<User>) {
    forall i, j :: 0 <= i < |users| && 0 <= j < |users| && users[i].uid == users[j].uid ==> users[i] == users[j]
  }

  lemma LowerWordSame(w: string)
    requires LowerWord(w)
    ensures Lower(w) == w
  {
    assert forall i :: 0 <= i < |w| ==> LowerChar(w[i]) == w[i];
  }

  /** A known method is read alike by the link builder, the endpoint and the inbound code. */
  lemma KnownMethod(u: User, s: Settings)
    requires RawSsMethod(u, s) in SS_METHODS
    ensures SsCipher(u, s) == RawSsMethod(u, s) && Lower(RawSsMethod(u, s)) == RawSsMethod(u, s)
  {
    hide SS_METHODS, LowerWord;
    CipherLowerWord(RawSsMethod(u, s));
    LowerWordSame(RawSsMethod(u, s));
  }

  lemma SsPort(u: User, s: Settings, env: Server)
    requires u.protocol == "shadowsocks"
    ensures EndpointPort(u, s, env) == if Lower(RawSsMethod(u, s)) in SS_2022_METHODS then SS_2022_PORT else SS_PORT
  {
    hide Lower, SS_2022_METHODS, RawSsMethod, TcpPort, LinkPort;
    LowerProtocols();
  }

  lemma Methods2022Known(m: string)
    requires m in SS_2022_METHODS
    ensures m in SS_METHODS
  {
    hide SS_2022_METHODS;
  }

  // ---------------------------------------------------------------- the Shadowsocks part

  lemma WsNotSs(users: seq<User>, env: Server, ib: Inbound)
    requires ib in WsInbounds(users, env)
    ensures ib.protocol == "vless" || ib.protocol == "vmess" || ib.protocol == "trojan"
  {
    hide EnabledClients, FallbackActive;
  }

  lemma SharedNotSs(users: seq<User>, port: int, network: string, path: string, ib: Inbound)
    requires ib in SharedInbounds(users, port, network, path)
    ensures ib.protocol == "vless" || ib.protocol == "vmess"
  {
    hide EnabledClients;
  }

  lemma WebNotSs(users: seq<User>, env: Server, ib: Inbound)
    requires ib in WebInbounds(users, env)
    ensures ib.protocol == "vless" || ib.protocol == "vmess" || ib.protocol == "trojan"
  {
    hide WsInbounds, SharedInbounds;
    if ib in WsInbounds(users, env) {
      WsNotSs(users, env, ib);
    } else if ib in SharedInbounds(users, XHTTP_PORT, "xhttp", "/xhttp") {
      SharedNotSs(users, XHTTP_PORT, "xhttp", "/xhttp", ib);
    } else if ib in SharedInbounds(users, HTTPUPGRADE_PORT, "httpupgrade", "/hup") {
      SharedNotSs(users, HTTPUPGRADE_PORT, "httpupgrade", "/hup", ib);
    } else {
      SharedNotSs(users, GRPC_PORT, "grpc", "titan", ib);
    }
  }

  lemma TcpNotSs(users: seq<User>, s: Settings, env: Server, ib: Inbound)
    requires ib in PlainTcpInbounds(users) || ib in TlsInbounds(users, env) || ib in FallbackInbound(users, env) ||
      ib in RealityInbound(users, s, env) || ib in Hysteria2Inbound(users, env)
    ensures ib.protocol == "vless" || ib.protocol == "vmess" || ib.protocol == "trojan" || ib.protocol == "hysteria"
  {
    hide EnabledClients, TcpClients, TrojanTcp, RealityClients, FallbackActive;
  }

  /** The Shadowsocks inbounds are the two the code writes for Shadowsocks users. */
  lemma SsPart(sha: Hash, users: seq<User>, s: Settings, env: Server, cipher: string, ib: Inbound)
    ensures ib in SsInbounds(sha, users, s, cipher) <==>
      ib in Generated(sha, users, s, env, cipher) && ib.protocol == "shadowsocks"
  {
    hide WebInbounds, PlainTcpInbounds, TlsInbounds, FallbackInbound, RealityInbound, Hysteria2Inbound, LegacyClients,
      ModernClients;
    if ib in WebInbounds(users, env) {
      WebNotSs(users, env, ib);
    }
    if ib in PlainTcpInbounds(users) || ib in TlsInbounds(users, env) || ib in FallbackInbound(users, env) ||
       ib in RealityInbound(users, s, env) || ib in Hysteria2Inbound(users, env) {
      TcpNotSs(users, s, env, ib);
    }
  }

  lemma LegacyClientOf(sha: Hash, users: seq<User>, s: Settings, c: Client) returns (u: User)
    requires c in LegacyClients(sha, users, s)
    ensures u in users && LegacySs(u, s) && c == LegacyClient(sha, u, s)
  {
    hide LegacyClient, LegacySs;
    var i :| 0 <= i < |LegacyClients(sha, users, s)| && LegacyClients(sha, users, s)[i] == c;
    u := LegacyUsers(users, s)[i];
    assert u in LegacyUsers(users, s);
  }

  lemma ModernClientOf(sha: Hash, users: seq<User>, s: Settings, cipher: string, c: Client) returns (u: User)
    requires c in ModernClients(sha, users, s, cipher)
    ensures u in users && ModernSs(u, s) && c == ModernClient(sha, u, cipher)
  {
    hide ModernClient, ModernSs;
    var i :| 0 <= i < |ModernClients(sha, users, s, cipher)| && ModernClients(sha, users, s, cipher)[i] == c;
    u := ModernUsers(users, s)[i];
    assert u in ModernUsers(users, s);
  }

  lemma LegacyClientIn(sha: Hash, users: seq<User>, s: Settings, u: User)
    requires u in users && LegacySs(u, s)
    ensures LegacyClient(sha, u, s) in LegacyClients(sha, users, s)
  {
    hide LegacyClient, LegacySs;
    SelectedEntry(LegacyUsers(users, s), v => LegacyClient(sha, v, s), u);
  }

  lemma ModernClientIn(sha: Hash, users: seq<User>, s: Settings, cipher: string, u: User)
    requires u in users && ModernSs(u, s)
    ensures ModernClient(sha, u, cipher) in ModernClients(sha, users, s, cipher)
  {
    hide ModernClient, ModernSs;
    SelectedEntry(ModernUsers(users, s), v => ModernClient(sha, v, cipher), u);
  }

  lemma SameUser(users: seq<User>, u: User, v: User)
    requires DistinctUids(users) && u in users && v in users && u.uid == v.uid
    ensures u == v
  {
    var i :| 0 <= i < |users| && users[i] == u;
    var j :| 0 <= j < |users| && users[j] == v;
  }

  // ---------------------------------------------------------------- legacy methods

  function LegacyIb(sha: Hash, users: seq<User>, s: Settings): Inbound {
    Plain("in-ss", Loopback, SS_PORT, "shadowsocks", LegacyClients(sha, users, s), "", "", "")
  }

  function ModernIb(sha: Hash, users: seq<User>, s: Settings, cipher: string): Inbound {
    Plain("in-ss-2022", Loopback, SS_2022_PORT, "shadowsocks", ModernClients(sha, users, s, cipher), "", "", "")
    .(cipher := cipher)
  }

  lemma LegacyKnownAgrees(sha: Hash, host: string, users: seq<User>, u: User, s: Settings, env: Server, cipher: string)
    requires u in users && LegacySs(u, s) && RawSsMethod(u, s) in SS_METHODS
    ensures SsLinkAgrees(sha, host, users, u, s, env, cipher)
  {
    hide SsLinkEntry, Generated, SS_2022_METHODS, SS_METHODS, Lower, PskLink, PskInbound, LegacyClients, ModernClients,
      EndpointPort, RawSsMethod, SsCipher;
    EntryMethod(sha, host, EndpointPort(u, s, env), u, s);
    KnownMethod(u, s);
    SsPort(u, s, env);
    var ib := LegacyIb(sha, users, s);
    LegacyClientIn(sha, users, s, u);
    var c := LegacyClient(sha, u, s);
    SameKey(sha, u.uuid, RawSsMethod(u, s));
    assert c in ib.clients && SameSecret(ib, c, SsLinkEntry(sha, host, EndpointPort(u, s, env), u, s));
    SsPart(sha, users, s, env, cipher, ib);
  }

  /** Nobody else's entry stands in for the user's own. */
  lemma LegacyUnknown(sha: Hash, host: string, users: seq<User>, u: User, s: Settings, port: nat, cipher: string,
                      ib: Inbound)
    requires DistinctUids(users) && u in users && LegacySs(u, s) && RawSsMethod(u, s) !in SS_METHODS
    requires ib in SsInbounds(sha, users, s, cipher)
    ensures !SsAgreesWith(ib, SsLinkEntry(sha, host, port, u, s), u)
  {
    hide SsLinkEntry, SS_2022_METHODS, SS_METHODS, Lower, PskLink, PskInbound, LegacyClients, ModernClients,
      RawSsMethod, SsCipher, DistinctUids;
    EntryMethod(sha, host, port, u, s);
    CipherServed(u, s);
    var e := SsLinkEntry(sha, host, port, u, s);
    forall c | c in ib.clients && c.email == u.uid
      ensures !SameSecret(ib, c, e)
    {
      if c in LegacyClients(sha, users, s) && ib == LegacyIb(sha, users, s) {
        var v := LegacyClientOf(sha, users, s, c);
        SameUser(users, u, v);
      } else {
        var v := ModernClientOf(sha, users, s, cipher, c);
        SameUser(users, u, v);
        assert false;
      }
    }
  }

  /** A legacy Shadowsocks link agrees with the configuration exactly when its method is one of
      the known ones, spelled as the list spells it. */
  lemma LegacySsAgreement(json: VmessJson.Json, sha: Hash, host: string, users: seq<User>, u: User, s: Settings,
                          env: Server, cipher: string)
    requires DistinctUids(users) && u in users && LegacySs(u, s) && HostText(host)
    requires PskBytes(sha, u.uuid, SsCipher(u, s)) != []
    ensures var e := ParseLink(json, BuildSs(sha, host, EndpointPort(u, s, env), u, s));
      e.Some? && (SsAgrees(Generated(sha, users, s, env, cipher), e.value, u) <==> RawSsMethod(u, s) in SS_METHODS)
  {
    hide SS_2022_METHODS, SS_METHODS, Generated, HostText, ParseLink, BuildSs, EndpointPort, RawSsMethod, SsCipher,
      SsAgreesWith, PskBytes, PskLink, SsLinkEntry, DistinctUids;
    var port := EndpointPort(u, s, env);
    SsRoundTrip(sha, json, host, port, u, s);
    if RawSsMethod(u, s) in SS_METHODS {
      LegacyKnownAgrees(sha, host, users, u, s, env, cipher);
    } else {
      forall ib | ib in Generated(sha, users, s, env, cipher)
        ensures !SsAgreesWith(ib, SsLinkEntry(sha, host, port, u, s), u)
      {
        SsPart(sha, users, s, env, cipher, ib);
        if ib.protocol == "shadowsocks" {
          LegacyUnknown(sha, host, users, u, s, port, cipher, ib);
        } else {
          OtherProtocol(ib, SsLinkEntry(sha, host, port, u, s), u);
        }
      }
    }
  }

  lemma OtherProtocol(ib: Inbound, e: Entry, u: User)
    requires ib.protocol != "shadowsocks"
    ensures !SsAgreesWith(ib, e, u)
  {
  }

  // ---------------------------------------------------------------- 2022 methods

  lemma ModernAgrees(sha: Hash, host: string, users: seq<User>, u: User, s: Settings, env: Server, cipher: string)
    requires u in users && ModernSs(u, s) && RawSsMethod(u, s) == cipher
    ensures SsLinkAgrees(sha, host, users, u, s, env, cipher)
  {
    hide SsLinkEntry, Generated, SS_2022_METHODS, SS_METHODS, Lower, PskLink, PskInbound, LegacyClients, ModernClients,
      EndpointPort, RawSsMethod, SsCipher, Decode64, DecodeUrl, Padding;
    EntryMethod(sha, host, EndpointPort(u, s, env), u, s);
    Methods2022Known(cipher);
    KnownMethod(u, s);
    SsPort(u, s, env);
    var ib := ModernIb(sha, users, s, cipher);
    ModernClientIn(sha, users, s, cipher, u);
    var c := ModernClient(sha, u, cipher);
    SameKey(sha, u.uuid, cipher);
    NotEmptyMethod(cipher);
    assert c in ib.clients && SameSecret(ib, c, SsLinkEntry(sha, host, EndpointPort(u, s, env), u, s));
    SsPart(sha, users, s, env, cipher, ib);
  }

  lemma NotEmptyMethod(m: string)
    requires m in SS_2022_METHODS
    ensures m != ""
  {
    hide SS_2022_METHODS, SS_METHODS;
    Methods2022Known(m);
    CipherWord(m);
  }

  lemma ModernOther(sha: Hash, host: string, users: seq<User>, u: User, s: Settings, port: nat, cipher: string,
                    ib: Inbound)
    requires DistinctUids(users) && u in users && ModernSs(u, s) && RawSsMethod(u, s) != cipher && cipher != ""
    requires ib in SsInbounds(sha, users, s, cipher)
    ensures !SsAgreesWith(ib, SsLinkEntry(sha, host, port, u, s), u)
  {
    hide SsLinkEntry, SS_2022_METHODS, SS_METHODS, Lower, PskLink, PskInbound, LegacyClients, ModernClients,
      RawSsMethod, SsCipher, DistinctUids;
    EntryMethod(sha, host, port, u, s);
    Methods2022Known(RawSsMethod(u, s));
    KnownMethod(u, s);
    var e := SsLinkEntry(sha, host, port, u, s);
    if ib.cipher == "" {
      forall c | c in ib.clients
        ensures c.email != u.uid
      {
        var v := LegacyClientOf(sha, users, s, c);
        if v.uid == u.uid {
          SameUser(users, u, v);
        }
      }
    } else {
      assert ib.cipher == cipher;
    }
  }

  lemma ModernEntry(sha: Hash, host: string, users: seq<User>, u: User, s: Settings, env: Server, cipher: string)
    requires DistinctUids(users) && u in users && ModernSs(u, s) && Picked(users, s, cipher)
    ensures SsLinkAgrees(sha, host, users, u, s, env, cipher) <==> RawSsMethod(u, s) == cipher
  {
    hide SS_2022_METHODS, SS_METHODS, Generated, EndpointPort, RawSsMethod, SsAgreesWith, SsLinkEntry, DistinctUids;
    var port := EndpointPort(u, s, env);
    assert RawSsMethod(u, s) in Methods2022(users, s);
    NotEmptyMethod(cipher);
    if RawSsMethod(u, s) == cipher {
      ModernAgrees(sha, host, users, u, s, env, cipher);
    } else {
      forall ib | ib in Generated(sha, users, s, env, cipher)
        ensures !SsAgreesWith(ib, SsLinkEntry(sha, host, port, u, s), u)
      {
        SsPart(sha, users, s, env, cipher, ib);
        if ib.protocol == "shadowsocks" {
          ModernOther(sha, host, users, u, s, port, cipher, ib);
        } else {
          OtherProtocol(ib, SsLinkEntry(sha, host, port, u, s), u);
        }
      }
    }
  }

  /** The link the panel builds for the user is readable and agrees with the configuration. */
  predicate BuiltLinkAgrees(json: VmessJson.Json, sha: Hash, host: string, users: seq<User>, u: User, s: Settings,
                            env: Server, cipher: string) {
    var e := ParseLink(json, BuildSs(sha, host, EndpointPort(u, s, env), u, s));
    e.Some? && SsAgrees(Generated(sha, users, s, env, cipher), e.value, u)
  }

  lemma ModernKeyKept(sha: Hash, u: User, s: Settings)
    requires ModernSs(u, s) && (forall b :: sha(b) != [])
    ensures PskBytes(sha, u.uuid, SsCipher(u, s)) != []
  {
    hide SS_2022_METHODS, SS_METHODS, RawSsMethod, SsCipher, Utf8.Encode;
    Methods2022Known(RawSsMethod(u, s));
    KnownMethod(u, s);
    var cipher := SsCipher(u, s);
    assert cipher in SS_2022_METHODS;
    assert sha(Utf8.Encode("titan-ss:" + u.uuid)) != [];
  }

  /** A 2022 link agrees exactly when the user's method is the one the code picked. */
  lemma ModernSsAgreement(json: VmessJson.Json, sha: Hash, host: string, users: seq<User>, u: User, s: Settings,
                          env: Server, cipher: string)
    requires DistinctUids(users) && u in users && ModernSs(u, s) && Picked(users, s, cipher)
    requires HostText(host) && (forall b :: sha(b) != [])
    ensures BuiltLinkAgrees(json, sha, host, users, u, s, env, cipher) <==> RawSsMethod(u, s) == cipher
  {
    hide SS_2022_METHODS, SS_METHODS, Generated, HostText, ParseLink, BuildSs, EndpointPort, RawSsMethod, SsCipher,
      SsAgrees, PskBytes, SsLinkEntry, DistinctUids, ModernSs, Picked;
    ModernKeyKept(sha, u, s);
    SsRoundTrip(sha, json, host, EndpointPort(u, s, env), u, s);
    ModernEntry(sha, host, users, u, s, env, cipher);
  }

  /** All Shadowsocks-2022 links agree exactly when their users all ask for one method, whichever
      one the code picks. */
  lemma AllModernSsAgreement(json: VmessJson.Json, sha: Hash, host: string, users: seq<User>, s: Settings, env: Server,
                             cipher: string)
    requires DistinctUids(users) && Picked(users, s, cipher) && HostText(host) && (forall b :: sha(b) != [])
    ensures (forall u :: u in users && ModernSs(u, s) ==>
              BuiltLinkAgrees(json, sha, host, users, u, s, env, cipher)) <==>
      (forall m, n :: m in Methods2022(users, s) && n in Methods2022(users, s) ==> m == n)
  {
    hide SS_2022_METHODS, SS_METHODS, EndpointPort, RawSsMethod, BuiltLinkAgrees, HostText, DistinctUids, ModernSs;
    forall u | u in users && ModernSs(u, s)
      ensures BuiltLinkAgrees(json, sha, host, users, u, s, env, cipher) <==> RawSsMethod(u, s) == cipher
      ensures RawSsMethod(u, s) in Methods2022(users, s)
    {
      ModernSsAgreement(json, sha, host, users, u, s, env, cipher);
    }
  }

  // ---------------------------------------------------------------- out of reach

  /** Nothing outside the machine is handed on to the port: no fallback names it, and nginx sends
      nothing there but the WebSocket path `/ss`, which no Shadowsocks link carries. */
  ghost predicate HandedOn(inbounds: seq<Inbound>, port: int) {
    || (exists front, f :: front in inbounds && f in front.fallbacks && f.dest == port)
    || (exists path :: Upstream(path) == port && path != "/ss")
  }

  lemma SsPorts(sha: Hash, users: seq<User>, s: Settings, cipher: string, ib: Inbound)
    requires ib in SsInbounds(sha, users, s, cipher)
    ensures ib.listen == Loopback && (ib.port == SS_PORT || ib.port == SS_2022_PORT)
  {
    hide LegacyClients, ModernClients;
  }

  lemma NoFallbackToSs(sha: Hash, users: seq<User>, s: Settings, env: Server, cipher: string, front: Inbound,
                       f: Fallback)
    requires front in Generated(sha, users, s, env, cipher) && f in front.fallbacks
    ensures f.dest != SS_PORT && f.dest != SS_2022_PORT
  {
    hide Generated, FallbackActive, Serving.HasVlessTls, Serving.Occupied;
    Serving.GeneratedShape(sha, users, s, env, cipher, front);
  }

  lemma OnlySsPath(path: string)
    requires Upstream(path) == SS_PORT || Upstream(path) == SS_2022_PORT
    ensures path == "/ss"
  {
    hide StartsWith;
  }

  lemma SsInboundHidden(sha: Hash, users: seq<User>, s: Settings, env: Server, cipher: string, ib: Inbound)
    requires ib in Generated(sha, users, s, env, cipher) && ib.protocol == "shadowsocks"
    ensures ib.listen == Loopback && !HandedOn(Generated(sha, users, s, env, cipher), ib.port)
  {
    hide Generated, SsInbounds, Upstream;
    SsPart(sha, users, s, env, cipher, ib);
    SsPorts(sha, users, s, cipher, ib);
    forall front, f | front in Generated(sha, users, s, env, cipher) && f in front.fallbacks
      ensures f.dest != ib.port
    {
      NoFallbackToSs(sha, users, s, env, cipher, front, f);
    }
    forall path | Upstream(path) == ib.port
      ensures path == "/ss"
    {
      OnlySsPath(path);
    }
  }

  /** No Shadowsocks link reaches a Shadowsocks inbound: every one of them listens on the loopback
      address, and nothing hands a caller on to it. A public socket of Xray stands at the port the
      link names only when the single-port fallback was put there, and that one speaks VLESS. */
  lemma SsOutOfReach(sha: Hash, users: seq<User>, u: User, s: Settings, env: Server, cipher: string)
    requires u.protocol == "shadowsocks"
    ensures forall ib :: ib in Generated(sha, users, s, env, cipher) && ib.protocol == "shadowsocks" ==>
      ib.listen == Loopback && !HandedOn(Generated(sha, users, s, env, cipher), ib.port)
    ensures var port := EndpointPort(u, s, env);
      Serving.Owned(Generated(sha, users, s, env, cipher), port) <==>
      FallbackActive(env) && env.fallbackPort == port && Serving.HasVlessTls(users)
  {
    hide Generated, EndpointPort, HandedOn, Serving.Owned, Serving.HasVlessTls, Serving.HasUser,
      SS_2022_METHODS, RawSsMethod, Lower;
    var port := EndpointPort(u, s, env);
    SsPort(u, s, env);
    Serving.OwnedExactly(sha, users, s, env, cipher, port);
    forall ib | ib in Generated(sha, users, s, env, cipher) && ib.protocol == "shadowsocks"
      ensures ib.listen == Loopback && !HandedOn(Generated(sha, users, s, env, cipher), ib.port)
    {
      SsInboundHidden(sha, users, s, env, cipher, ib);
    }
  }
}
