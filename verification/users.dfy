/** The user rows, the settings and the constants that links and inbounds are built from. */
module Users {
  import opened Wrappers
  import opened Text

  datatype User = User(
    uid: string,
    uuid: string,
    name: string,
    enabled: bool,
    protocol: string,
    transport: string,
    security: string,
    fingerprint: string,
    alpn: string,
    publicKey: string,
    shortId: string,
    spiderX: string,
    ssMethod: string,
    nodeId: Option<int>)

  /** `fp_len` and `fp_int` as the active operator profile decides them. */
  datatype Fragment = Fragment(length: string, interval: string)

  datatype Settings = Settings(
    publicPort: int,
    defaultTransport: string,
    defaultFingerprint: string,
    sniOverride: string,
    realityPub: string,
    realitySid: string,
    realitySni: string,
    visionEnabled: bool,
    xhttpMode: string,
    fragment: Option<Fragment>,
    ssMethod: string)

  const VISION_FLOW := "xtls-rprx-vision"
  const PINNED_MODES: set<string> := {"packet-up", "stream-up", "stream-one"}

  const SS_2022_METHODS: set<string> := {
    "2022-blake3-aes-128-gcm", "2022-blake3-aes-256-gcm", "2022-blake3-chacha20-poly1305"}
  const SS_METHODS: set<string> := SS_2022_METHODS + {
    "aes-128-gcm", "aes-256-gcm", "chacha20-ietf-poly1305"}
  const DEFAULT_SS_METHOD := "2022-blake3-aes-128-gcm"

  /** Transports the server has an inbound for, per protocol. */
  function ServedTransports(protocol: string): set<string> {
    if protocol == "vless" || protocol == "vmess" then {"ws", "xhttp", "grpc", "tcp", "httpupgrade"}
    else if protocol == "trojan" then {"ws", "tcp"}
    else if protocol == "shadowsocks" || protocol == "hysteria2" then {}
    else {"ws"}
  }

  /** `tuning.flow_for` */
  function FlowFor(s: Settings, transport: string, security: string): string {
    if !s.visionEnabled then ""
    else if Lower(transport) != "tcp" then ""
    else if Lower(security) != "reality" && Lower(security) != "tls" then ""
    else VISION_FLOW
  }

  /** On Reality the flow is Vision exactly if the settings say so. */
  lemma VisionFlow(s: Settings)
    ensures FlowFor(s, "tcp", "reality") == if s.visionEnabled then "xtls-rprx-vision" else ""
  {
  }
}
