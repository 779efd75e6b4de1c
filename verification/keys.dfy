/** The parameter names of share links. */
module Keys {
  import opened Percent

  datatype Key =
    | Encryption | Security | Type | HeaderType | Pbk | PublicKey | Sid | ShortId | Sni | Spx | SpiderX
    | Fp | Flow | Host | Path | Alpn | Mode | ServiceName | FpLen | FpInt
    | AllowInsecure | Insecure | Obfs | ObfsParam | ObfsPassword

  function Name(k: Key): string {
    match k
    case Encryption => "encryption"
    case Security => "security"
    case Type => "type"
    case HeaderType => "headerType"
    case Pbk => "pbk"
    case PublicKey => "publicKey"
    case Sid => "sid"
    case ShortId => "shortId"
    case Sni => "sni"
    case Spx => "spx"
    case SpiderX => "spiderX"
    case Fp => "fp"
    case Flow => "flow"
    case Host => "host"
    case Path => "path"
    case Alpn => "alpn"
    case Mode => "mode"
    case ServiceName => "serviceName"
    case FpLen => "fp_len"
    case FpInt => "fp_int"
    case AllowInsecure => "allowInsecure"
    case Insecure => "insecure"
    case Obfs => "obfs"
    case ObfsParam => "obfsParam"
    case ObfsPassword => "obfs-password"
  }

  /** `p.get(key) or ""` */
  function Get(p: map<string, string>, k: Key): string {
    if Name(k) in p then p[Name(k)] else ""
  }

  function Put(q: string, k: Key, value: string): string {
    With(q, Name(k), value)
  }

  /** Length, second and last letter: enough to tell the names apart. */
  function Signature(s: string): (int, int, int)
    requires |s| >= 2
  {
    (|s|, s[1] as int, s[|s| - 1] as int)
  }

  function SignatureOf(k: Key): (int, int, int) {
    match k
    case Encryption => (10, 'n' as int, 'n' as int)
    case Security => (8, 'e' as int, 'y' as int)
    case Type => (4, 'y' as int, 'e' as int)
    case HeaderType => (10, 'e' as int, 'e' as int)
    case Pbk => (3, 'b' as int, 'k' as int)
    case PublicKey => (9, 'u' as int, 'y' as int)
    case Sid => (3, 'i' as int, 'd' as int)
    case ShortId => (7, 'h' as int, 'd' as int)
    case Sni => (3, 'n' as int, 'i' as int)
    case Spx => (3, 'p' as int, 'x' as int)
    case SpiderX => (7, 'p' as int, 'X' as int)
    case Fp => (2, 'p' as int, 'p' as int)
    case Flow => (4, 'l' as int, 'w' as int)
    case Host => (4, 'o' as int, 't' as int)
    case Path => (4, 'a' as int, 'h' as int)
    case Alpn => (4, 'l' as int, 'n' as int)
    case Mode => (4, 'o' as int, 'e' as int)
    case ServiceName => (11, 'e' as int, 'e' as int)
    case FpLen => (6, 'p' as int, 'n' as int)
    case FpInt => (6, 'p' as int, 't' as int)
    case AllowInsecure => (13, 'l' as int, 'e' as int)
    case Insecure => (8, 'n' as int, 'e' as int)
    case Obfs => (4, 'b' as int, 's' as int)
    case ObfsParam => (9, 'b' as int, 'm' as int)
    case ObfsPassword => (13, 'b' as int, 'd' as int)
  }

  lemma NameSignature(k: Key)
    ensures |Name(k)| >= 2 && Signature(Name(k)) == SignatureOf(k)
  {
  }

  predicate Short(k: Key) {
    |Name(k)| <= 4
  }

  lemma ShortKeyText(k: Key)
    requires Short(k)
    ensures KeyText(Name(k))
  {
  }

  predicate Medium(k: Key) {
    5 <= |Name(k)| <= 8
  }

  lemma MediumKeyText(k: Key)
    requires Medium(k)
    ensures KeyText(Name(k))
  {
  }

  predicate Long(k: Key) {
    9 <= |Name(k)| <= 10
  }

  lemma LongKeyText(k: Key)
    requires Long(k)
    ensures KeyText(Name(k))
  {
  }

  lemma LongestKeyText(k: Key)
    requires |Name(k)| > 10
    ensures KeyText(Name(k))
  {
  }

  lemma NameKeyText(k: Key)
    ensures KeyText(Name(k))
  {
    hide Name, KeyText;
    NameSignature(k);
    if Short(k) {
      ShortKeyText(k);
    } else if Medium(k) {
      MediumKeyText(k);
    } else if Long(k) {
      LongKeyText(k);
    } else {
      LongestKeyText(k);
    }
  }

  lemma SignatureInjective(a: Key, b: Key)
    requires SignatureOf(a) == SignatureOf(b)
    ensures a == b
  {
  }

  /** No two parameters share a name. */
  lemma NameInjective(a: Key, b: Key)
    requires Name(a) == Name(b)
    ensures a == b
  {
    hide Name;
    NameSignature(a);
    NameSignature(b);
    SignatureInjective(a, b);
  }

  /** The parameters the reader looks at, by name; a missing one is "". */
  datatype Fields = Fields(
    network: string, security: string, path: string, host: string, sni: string, fp: string, alpn: string,
    flow: string, mode: string, service: string, pbk: string, publicKey: string, sid: string, shortId: string,
    spx: string, spiderX: string, allowInsecure: string, insecure: string, encryption: string,
    obfs: string, obfsParam: string)

  const NO_FIELDS := Fields("", "", "", "", "", "", "", "", "", "", "", "", "", "", "", "", "", "", "", "", "")

  function FieldsOf(p: map<string, string>): Fields {
    Fields(Get(p, Type), Get(p, Security), Get(p, Path), Get(p, Host), Get(p, Sni), Get(p, Fp), Get(p, Alpn),
           Get(p, Flow), Get(p, Mode), Get(p, ServiceName), Get(p, Pbk), Get(p, PublicKey), Get(p, Sid),
           Get(p, ShortId), Get(p, Spx), Get(p, SpiderX), Get(p, AllowInsecure), Get(p, Insecure),
           Get(p, Encryption), Get(p, Obfs), Get(p, ObfsParam))
  }

  /** The fields with parameter `k` set to `v`. */
  function Set(f: Fields, k: Key, v: string): Fields {
    Fields(
      if k == Type then v else f.network, if k == Security then v else f.security,
      if k == Path then v else f.path, if k == Host then v else f.host,
      if k == Sni then v else f.sni, if k == Fp then v else f.fp, if k == Alpn then v else f.alpn,
      if k == Flow then v else f.flow, if k == Mode then v else f.mode,
      if k == ServiceName then v else f.service, if k == Pbk then v else f.pbk,
      if k == PublicKey then v else f.publicKey, if k == Sid then v else f.sid,
      if k == ShortId then v else f.shortId, if k == Spx then v else f.spx,
      if k == SpiderX then v else f.spiderX, if k == AllowInsecure then v else f.allowInsecure,
      if k == Insecure then v else f.insecure, if k == Encryption then v else f.encryption,
      if k == Obfs then v else f.obfs, if k == ObfsParam then v else f.obfsParam)
  }

  /** What a query string says. */
  function Reading(q: string): Fields {
    FieldsOf(Params(q))
  }

  lemma GetUpdate(p: map<string, string>, k: Key, v: string, j: Key)
    ensures Get(p[Name(k) := v], j) == if j == k then v else Get(p, j)
  {
    hide Name;
    if Name(j) == Name(k) {
      NameInjective(j, k);
    }
  }

  lemma FieldsUpdate(p: map<string, string>, k: Key, v: string)
    ensures FieldsOf(p[Name(k) := v]) == Set(FieldsOf(p), k, v)
  {
    hide Name, Get;
    forall j
      ensures Get(p[Name(k) := v], j) == if j == k then v else Get(p, j)
    {
      GetUpdate(p, k, v, j);
    }
  }

  lemma EmptyQuery()
    ensures Reading("") == NO_FIELDS
  {
    hide Name;
    NoParams();
  }

  /** Writing a parameter after the others sets it and changes no other one. */
  lemma PutAll(q: string, k: Key, value: string)
    ensures Reading(Put(q, k, QuoteAll(value))) == Set(Reading(q), k, value)
    ensures '#' !in q ==> '#' !in Put(q, k, QuoteAll(value))
  {
    hide Name, FieldsOf, Set, Params, With, QuoteAll, KeyText;
    NameKeyText(k);
    ParamsWithAll(q, Name(k), value);
    FieldsUpdate(Params(q), k, value);
  }

  lemma PutPath(q: string, k: Key, value: string)
    ensures Reading(Put(q, k, QuotePath(value))) == Set(Reading(q), k, value)
    ensures '#' !in q ==> '#' !in Put(q, k, QuotePath(value))
  {
    hide Name, FieldsOf, Set, Params, With, QuotePath, KeyText;
    NameKeyText(k);
    ParamsWithPath(q, Name(k), value);
    FieldsUpdate(Params(q), k, value);
  }

  lemma PutList(q: string, k: Key, value: string)
    ensures Reading(Put(q, k, QuoteList(value))) == Set(Reading(q), k, value)
    ensures '#' !in q ==> '#' !in Put(q, k, QuoteList(value))
  {
    hide Name, FieldsOf, Set, Params, With, QuoteList, KeyText;
    NameKeyText(k);
    ParamsWithList(q, Name(k), value);
    FieldsUpdate(Params(q), k, value);
  }

  lemma PutPlain(q: string, k: Key, value: string)
    requires RawValue(value)
    ensures Reading(Put(q, k, value)) == Set(Reading(q), k, value)
    ensures '#' !in q ==> '#' !in Put(q, k, value)
  {
    hide Name, FieldsOf, Set, Params, With, KeyText, RawValue;
    NameKeyText(k);
    ParamsWithPlain(q, Name(k), value);
    FieldsUpdate(Params(q), k, value);
  }
}
