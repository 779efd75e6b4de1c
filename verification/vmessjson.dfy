/** The JSON record a vmess link carries. */
module VmessJson {
  import opened Wrappers

  /** Member names; `Other` stands for every name the program does not use. */
  datatype Member =
    | V | Ps | Add | Port | Id | Aid | Scy | Net | Type | Host | Path | Tls | Sni | Alpn | Fp | ServiceName
    | Other(name: string)

  type Object = map<Member, string>

  /** `json.dumps` and `json.loads` on flat objects of strings. */
  datatype Json = Json(dumps: Object -> string, loads: string -> Option<Object>)

  /** `str(obj.get(key) or "")` */
  function Field(obj: Object, key: Member): string {
    if key in obj then obj[key] else ""
  }
}
