/** Reading share links back (app/subfmt.py, the parsing half). */
module Parser {
  import opened Wrappers
  import opened Text
  import opened Percent
  import opened Keys
  import opened Base64
  import Decimal
  import Utf8
  import VmessJson

  /** The normalised description of one link; a key the source leaves out is "". */
  datatype Entry = Entry(
    kind: string, name: string, user: string, password: string,
    server: string, port: int,
    transport: string, security: string, path: string, host: string,
    sni: string, fp: string, alpn: seq<string>,
    flow: string, mode: string, service: string,
    pbk: string, sid: string, spx: string,
    insecure: bool, cipher: string, obfs: string, obfsParam: string)

  /** An entry with only its address filled in. */
  function Blank(kind: string, name: string, server: string, port: int): Entry {
    Entry(kind, name, "", "", server, port, "tcp", "none", "", "", "", "", [],
          "", "", "", "", "", "", false, "", "", "")
  }

  const SUPPORTED: set<string> := {"vless", "vmess", "trojan", "shadowsocks", "hysteria2"}

  /** `[a for a in text.split(",") if a]` */
  function AlpnList(text: string): seq<string> {
    NotEmpty(Split(text, ','))
  }

  function NotEmpty(parts: seq<string>): seq<string> {
    if parts == [] then []
    else if parts[0] == "" then NotEmpty(parts[1..])
    else [parts[0]] + NotEmpty(parts[1..])
  }

  /** `_host` */
  function HostOf(loc: string): string {
    if Count(loc, ':') == 1 then BeforeLast(loc, ':') else Before(loc, ':')
  }

  /** `_port` of a text */
  function PortOf(value: string): int {
    var n := Decimal.ParseInt(AfterLast(value, ':'));
    if n.Some? then n.value else 443
  }

  /** `_b64_text` */
  function B64Text(blob: string): string {
    var b := DecodeUrl(blob + Padding(|blob|));
    if b.Some? then Utf8.Decode(b.value, "") else ""
  }

  function JsonOf(json: VmessJson.Json, text: string): Option<VmessJson.Object> {
    var b := Decode64(text);
    if b.Some? then json.loads(Utf8.Decode(b.value, "")) else None
  }

  /** `_b64_json`: the text as it is, then with the URL alphabet translated; {} on failure. */
  function B64Json(json: VmessJson.Json, blob: string): VmessJson.Object {
    var first := JsonOf(json, blob + Padding(|blob|));
    if first.Some? then first.value
    else
      var second := JsonOf(json, FromUrl(blob) + Padding(|blob|));
      if second.Some? then second.value else map[]
  }

  function VmessEntry(obj: VmessJson.Object, name: string): Entry {
    var field := (m: VmessJson.Member) => VmessJson.Field(obj, m);
    var net := Or(field(VmessJson.Net), "tcp");
    Blank("vmess", Or(field(VmessJson.Ps), name), field(VmessJson.Add),
          if VmessJson.Port in obj then PortOf(obj[VmessJson.Port]) else 443)
    .(user := field(VmessJson.Id), cipher := Or(field(VmessJson.Scy), "auto"),
      transport := if net in {"ws", "grpc", "httpupgrade", "xhttp", "tcp"} then net else "tcp",
      security := if field(VmessJson.Tls) == "tls" then "tls" else "none",
      path := field(VmessJson.Path), host := field(VmessJson.Host), sni := field(VmessJson.Sni),
      fp := field(VmessJson.Fp), alpn := AlpnList(field(VmessJson.Alpn)), service := field(VmessJson.ServiceName))
  }

  /** The entry of a vless, trojan or hysteria2 link. */
  function ParamEntry(kind: string, name: string, cred: string, server: string, port: int, p: Fields): Entry {
    Entry(kind, name, cred, cred, server, port,
          if kind == "hysteria2" then "hysteria" else Or(p.network, "tcp"),
          Or(p.security, if kind == "trojan" then "tls" else "none"),
          p.path, p.host, p.sni, p.fp, AlpnList(p.alpn), p.flow, p.mode, p.service,
          Or(p.pbk, p.publicKey), Or(p.sid, p.shortId), Or(p.spx, p.spiderX),
          IsYes(Or(Or(p.allowInsecure, p.insecure), "0")),
          p.encryption, p.obfs, p.obfsParam)
  }

  predicate IsYes(s: string) {
    s == "1" || s == "true"
  }

  function SsEntry(rest: string, name: string): Option<Entry> {
    var head, loc := Before(rest, '@'), After(rest, '@');
    var raw := if ':' in head then head else B64Text(head);
    var cipher := Before(raw, ':');
    var password := if ':' in head then Unquote(After(raw, ':')) else After(raw, ':');
    if cipher == "" || password == "" then None
    else Some(Blank("shadowsocks", name, HostOf(loc), PortOf(loc)).(cipher := cipher, password := password))
  }

  function SchemeOf(link: string): string {
    var i := Find(link, "://");
    var scheme := if i < |link| then Lower(link[..i]) else "";
    if scheme == "ss" then "shadowsocks" else scheme
  }

  /** `parse_link` */
  function ParseLink(json: VmessJson.Json, text: string): Option<Entry> {
    var link := Strip(text);
    var i := Find(link, "://");
    ParseBody(json, SchemeOf(link), if i < |link| then link[i + 3..] else link)
  }

  /** `parse_link` behind the scheme */
  function ParseBody(json: VmessJson.Json, scheme: string, body: string): Option<Entry> {
    if scheme !in SUPPORTED && scheme != "wireguard" then None
    else
      var rest0 := Before(body, '#');
      var name := Or(Unquote(After(body, '#')), "TiTaN");
      var rest := Before(rest0, '?');
      if scheme == "vmess" then
        var obj := B64Json(json, rest);
        if obj == map[] then None else Some(VmessEntry(obj, name))
      else if scheme == "wireguard" then None
      else if scheme == "shadowsocks" then SsEntry(rest, name)
      else
        var loc := After(rest, '@');
        var entry := ParamEntry(scheme, name, Unquote(Before(rest, '@')), HostOf(loc), PortOf(loc),
                                Reading(After(rest0, '?')));
        if entry.server == "" then None else Some(entry)
  }
}
