/** Reality links against the ids and names the Reality inbound accepts. */
module RealityServing {
  import opened Text
  import opened Users
  import opened SsKeys
  import opened Links
  import opened Parser
  import opened VlessLinks
  import opened Inbounds
  import opened Agreement
  import opened Serving
  import VmessJson
  import Rotation

  /** `accepted_server_names`: the names of older links, then the configured ones. `current` is the
      sorted list of the default name and the one in the settings, without empty ones. */
  function AcceptedServerNames(older: seq<string>, current: seq<string>, fallback: string): seq<string> {
    var out := Rotation.Deduped(NotEmpty(older + current));
    if out != [] then out else if current != [] then current else [fallback]
  }

  ghost predicate CurrentNames(current: seq<string>, fallback: string, setting: string) {
    forall v :: v in current <==> v != "" && (v == fallback || v == setting)
  }

  lemma {:induction false} NotEmptyMembers(list: seq<string>)
    ensures forall v :: v in NotEmpty(list) <==> v in list && v != ""
  {
    if list != [] {
      NotEmptyMembers(list[1..]);
      assert list == [list[0]] + list[1..];
    }
  }

  /** A name is accepted exactly when an older link may carry it, or it is the default or configured one. */
  lemma NameAccepted(older: seq<string>, current: seq<string>, fallback: string, setting: string, name: string)
    requires CurrentNames(current, fallback, setting) && name != ""
    ensures name in AcceptedServerNames(older, current, fallback) <==>
      name in older || name == fallback || name == setting
  {
    NotEmptyMembers(older + current);
    Rotation.DedupedDistinct(NotEmpty(older + current));
  }

  /** The inbound a Reality link reaches, and what it accepts. */
  lemma RealityInboundOf(sha: Hash, host: string, users: seq<User>, u: User, s: Settings, env: Server, cipher: string)
    returns (ib: Inbound)
    requires u in users && u.protocol == "vless" && Normalized(u) && u.security == "reality" && env.realityPriv != ""
    ensures var e := VlessEntry(host, EndpointPort(u, s, env), u, s);
      && ib in Generated(sha, users, s, env, cipher) && ServedBy(Generated(sha, users, s, env, cipher), ib, e, u, env)
      && ib.serverNames == env.serverNames && ib.shortIds == env.shortIds
      && e.sid == Or(u.shortId, s.realitySid) && e.sni == RealitySni(host, s) && e.pbk == Or(u.publicKey, s.realityPub)
  {
    hide Generated, Normalized, EndpointPort, Admits, Direct, WebEntry, RawEntry, TransportFor, SecurityOf, FlowFor,
      FingerprintOf, Upper, PlainTcpInbounds, TlsInbounds, FallbackInbound, RealityInbound;
    NormalFields(u, s);
    VlessEntryShape(host, u, s, env);
    var e := VlessEntry(host, EndpointPort(u, s, env), u, s);
    ib := RealityServed(users, u, s, env, e);
    TcpPart(sha, users, s, env, cipher, ib);
  }

  /** The short ids the panel has given out and still honours: at first the stored ones, after a
      rotation the last twelve of the history. */
  function HonouredIds(store: Rotation.Store, run: seq<Rotation.Rotate>): seq<string>
    requires Rotation.Batches(run)
  {
    if run == [] then store.sids + [store.sid] else Rotation.Last12(Rotation.History(store, run))
  }

  lemma IdAccepted(store: Rotation.Store, run: seq<Rotation.Rotate>, id: string)
    requires Rotation.Batches(run) && Rotation.Fresh(store, run)
    ensures id in Rotation.Accepted(Rotation.After(store, run)) <==> id in HonouredIds(store, run)
  {
    if run == [] {
      Rotation.DedupedDistinct(store.sids + [store.sid]);
    } else {
      Rotation.GraceWindow(store, run);
    }
  }

  /** What the parser reads out of a Reality link is served, and its short id and server name are accepted
      there exactly under these conditions: the id is the user's own or the one in the settings, and the
      panel still honours it; the name is configured, or what stands in for it is the default or an older one. */
  lemma RealityLinkAccepted(json: VmessJson.Json, sha: Hash, host: string, users: seq<User>, u: User, s: Settings,
                            env: Server, cipher: string, store: Rotation.Store, run: seq<Rotation.Rotate>,
                            older: seq<string>, current: seq<string>, fallback: string)
    requires u in users && u.protocol == "vless" && Normalized(u) && u.security == "reality" && env.realityPriv != ""
    requires VlessInputs(host, u, s)
    requires Rotation.Batches(run) && Rotation.Fresh(store, run)
    requires env.shortIds == Rotation.Accepted(Rotation.After(store, run))
    requires CurrentNames(current, fallback, s.realitySni)
    requires env.serverNames == AcceptedServerNames(older, current, fallback)
    ensures var e := ParseLink(json, BuildVless(host, EndpointPort(u, s, env), u, s));
      && e.Some?
      && exists ib :: ib in Generated(sha, users, s, env, cipher)
           && ServedBy(Generated(sha, users, s, env, cipher), ib, e.value, u, env)
           && (e.value.sid in ib.shortIds <==> Or(u.shortId, s.realitySid) in HonouredIds(store, run))
           && (e.value.sni in ib.serverNames <==>
                 s.realitySni != "" || Or(s.sniOverride, host) == fallback || Or(s.sniOverride, host) in older)
  {
    hide Generated, Normalized, EndpointPort, ParseLink, BuildVless, VlessEntry, ServedBy,
      AcceptedServerNames, Rotation.Fresh, Rotation.After, Rotation.Accepted, CurrentNames, HonouredIds;
    assert host != "";
    hide VlessInputs;
    LowerProtocols();
    VlessRoundTrip(json, host, EndpointPort(u, s, env), u, s);
    var ib := RealityInboundOf(sha, host, users, u, s, env, cipher);
    IdAccepted(store, run, Or(u.shortId, s.realitySid));
    NameAccepted(older, current, fallback, s.realitySni, RealitySni(host, s));
  }

  /** A panel that has always set both copies of its short id together honours the published one, before
      the first rotation and after any number of them. */
  lemma PublishedIdHonoured(store: Rotation.Store, run: seq<Rotation.Rotate>)
    requires Rotation.Batches(run) && Rotation.Fresh(store, run) && store.published == store.sid
    ensures Rotation.After(store, run).published in HonouredIds(store, run)
  {
    hide Rotation.Fresh, Rotation.Accepted;
    if run != [] {
      Rotation.GraceWindow(store, run);
    }
    IdAccepted(store, run, Rotation.After(store, run).published);
    Rotation.AcceptedDistinct(Rotation.After(store, run));
  }
}
