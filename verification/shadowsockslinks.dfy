/** Shadowsocks links, in the 2022 form and the legacy form, are read back as method and key. */
module ShadowsocksLinks {
  import opened Wrappers
  import opened Text
  import opened Percent
  import opened Base64
  import opened Users
  import opened SsKeys
  import opened Links
  import opened Parser
  import opened LinkReading
  import VmessJson
  import Decimal
  import Utf8

  /** What a Shadowsocks user's link means. */
  function SsLinkEntry(sha: Hash, host: string, port: nat, u: User, s: Settings): Entry {
    var asked := Lower(if u.ssMethod != "" then u.ssMethod
                       else if s.ssMethod != "" then s.ssMethod else "2022-blake3-aes-128-gcm");
    var cipher := if asked in SS_METHODS then asked else "2022-blake3-aes-128-gcm";
    Blank("shadowsocks", "TiTaN-" + u.name + "-SS", host, port)
    .(cipher := cipher, password := PskLink(sha, u.uuid, cipher))
  }

  /** The builder's method and key are those of the entry. */
  lemma EntryMethod(sha: Hash, host: string, port: nat, u: User, s: Settings)
    ensures var e := SsLinkEntry(sha, host, port, u, s);
      && e.cipher == SsCipher(u, s) && e.password == PskLink(sha, u.uuid, SsCipher(u, s))
      && e == Blank("shadowsocks", "TiTaN-" + u.name + "-SS", host, port).(cipher := e.cipher, password := e.password)
  {
    hide Lower, PskLink;
  }

  /** A method name or key that can stand in the authority part and around the ':' between them. */
  predicate PlainWord(w: string) {
    Ascii(w) && forall i :: 0 <= i < |w| ==> w[i] !in "%@?#:"
  }

  predicate LowerWord(w: string) {
    w != "" && forall i :: 0 <= i < |w| ==> w[i] == '-' || '0' <= w[i] <= '9' || 'a' <= w[i] <= 'z'
  }

  lemma LowerWordPlain(w: string)
    requires LowerWord(w)
    ensures PlainWord(w)
  {
  }

  lemma ShortCipherWords()
    ensures LowerWord("aes-128-gcm") && LowerWord("aes-256-gcm")
  {
  }

  lemma ChachaWord()
    ensures LowerWord("chacha20-ietf-poly1305")
  {
  }

  lemma Aes128Word()
    ensures LowerWord("2022-blake3-aes-128-gcm")
  {
  }

  lemma Aes256Word()
    ensures LowerWord("2022-blake3-aes-256-gcm")
  {
  }

  lemma Chacha2022Word()
    ensures LowerWord("2022-blake3-chacha20-poly1305")
  {
  }

  /** Method names are lower-case words. */
  lemma CipherLowerWord(cipher: string)
    requires cipher in SS_METHODS
    ensures LowerWord(cipher)
  {
    hide LowerWord;
    ShortCipherWords();
    ChachaWord();
    Aes128Word();
    Aes256Word();
    Chacha2022Word();
  }

  /** No method name holds a character the link gives a meaning to. */
  lemma CipherWord(cipher: string)
    requires cipher in SS_METHODS
    ensures PlainWord(cipher) && cipher != ""
  {
    hide SS_METHODS;
    CipherLowerWord(cipher);
    LowerWordPlain(cipher);
  }

  /** `method:key`, taken apart at the colon. */
  lemma ReadPair(cipher: string, key: string)
    requires PlainWord(cipher) && PlainWord(key)
    ensures var head := cipher + ":" + key;
      && ':' in head && CredText(head) && Ascii(head)
      && Before(head, ':') == cipher && After(head, ':') == key
  {
    var head := cipher + ":" + key;
    assert head == cipher + [':'] + key;
    assert head[|cipher|] == ':';
    assert ':' !in cipher;
    IndexOfAppend(cipher, ':', key);
  }

  lemma ReadPlainHead(cipher: string, key: string, host: string, port: nat, name: string)
    requires PlainWord(cipher) && PlainWord(key) && cipher != "" && HostText(host)
    ensures SsEntry(cipher + ":" + key + "@" + host + ":" + Decimal.Print(port), name) ==
      if key == "" then None
      else Some(Blank("shadowsocks", name, host, port).(cipher := cipher, password := key))
  {
    hide HostOf, PortOf, Before, After, Decimal.Print, PlainWord, CredText, HostText, Unquote, B64Text;
    ReadPair(cipher, key);
    ReadAuthority(cipher + ":" + key, host, port);
    PlainUnquote(key);
  }

  lemma PlainUnquote(key: string)
    requires PlainWord(key)
    ensures Unquote(key) == key
  {
    assert '%' !in key;
    UnquotePlain(key);
  }

  /** The encoded head holds none of the separators, and decodes to the pair. */
  lemma ReadEncodedPair(text: string)
    ensures var head := EncodeUrlNoPad(Utf8.Encode(text));
      ':' !in head && CredText(head) && B64Text(head) == text
  {
    hide EncodeUrlNoPad, DecodeUrl, Utf8.Encode, Utf8.Decode;
    var b := Utf8.Encode(text);
    var head := EncodeUrlNoPad(b);
    EncodedHead(b);
    DecodeUrlNoPad(b);
    Utf8.DecodeEncode(text, "");
  }

  lemma EncodedHead(b: seq<Utf8.Byte>)
    ensures var head := EncodeUrlNoPad(b);
      ':' !in head && CredText(head)
  {
    hide EncodeUrlNoPad;
    EncodeUrlBody(b);
    var head := EncodeUrlNoPad(b);
    forall i | 0 <= i < |head|
      ensures head[i] != ':' && head[i] !in "@?#"
    {
      assert SymValue(head[i]) < 62 || head[i] == '-' || head[i] == '_';
    }
  }

  lemma ReadEncodedHead(cipher: string, key: string, host: string, port: nat, name: string)
    requires PlainWord(cipher) && PlainWord(key) && cipher != "" && HostText(host)
    ensures SsEntry(EncodeUrlNoPad(Utf8.Encode(cipher + ":" + key)) + "@" + host + ":" + Decimal.Print(port), name) ==
      if key == "" then None
      else Some(Blank("shadowsocks", name, host, port).(cipher := cipher, password := key))
  {
    hide HostOf, PortOf, Before, After, Decimal.Print, PlainWord, CredText, HostText, Unquote, B64Text, EncodeUrlNoPad,
      Utf8.Encode;
    ReadPair(cipher, key);
    ReadEncodedPair(cipher + ":" + key);
    ReadAuthority(EncodeUrlNoPad(Utf8.Encode(cipher + ":" + key)), host, port);
  }

  lemma ReadSsBody(json: VmessJson.Json, rest: string, frag: string)
    requires '?' !in rest && '#' !in rest
    ensures ParseBody(json, "shadowsocks", rest + "#" + frag) == SsEntry(rest, Or(Unquote(frag), "TiTaN"))
  {
    hide SsEntry, Unquote;
    assert rest + "#" + frag == rest + ['#'] + frag;
    IndexOfAppend(rest, '#', frag);
    assert rest[..|rest|] == rest;
  }

  lemma ReadSsLink(json: VmessJson.Json, rest: string, frag: string)
    requires '?' !in rest && '#' !in rest
    requires frag != "" && !IsSpace(frag[|frag| - 1])
    ensures ParseLink(json, Link("ss", rest + "#" + frag)) == SsEntry(rest, Or(Unquote(frag), "TiTaN"))
  {
    ReadSsBody(json, rest, frag);
    hide ParseBody, SsEntry, Unquote, SchemeOf, Strip, Find, Lower, IsSpace;
    SchemeText("ss");
    FindScheme("ss", rest + "#" + frag);
  }

  lemma KeyWord(sha: Hash, uuid: string, cipher: string)
    ensures PlainWord(PskLink(sha, uuid, cipher))
  {
    PskLinkChars(sha, uuid, cipher);
  }

  lemma CipherServed(u: User, s: Settings)
    ensures SsCipher(u, s) in SS_METHODS
  {
  }

  lemma HeadAuthority(head: string, host: string, port: nat)
    requires CredText(head) && HostText(host)
    ensures var rest := head + "@" + host + ":" + Decimal.Print(port); '?' !in rest && '#' !in rest
  {
    ReadAuthority(head, host, port);
  }

  /** The part of the link in front of '@'. */
  function HeadOf(cipher: string, key: string): string {
    if cipher in SS_2022_METHODS then cipher + ":" + key else EncodeUrlNoPad(Utf8.Encode(cipher + ":" + key))
  }

  lemma HeadFacts(cipher: string, key: string, host: string, port: nat)
    requires PlainWord(cipher) && PlainWord(key) && HostText(host)
    ensures var rest := HeadOf(cipher, key) + "@" + host + ":" + Decimal.Print(port); '?' !in rest && '#' !in rest
  {
    hide PlainWord, CredText, HostText, EncodeUrlNoPad, Decimal.Print, Utf8.Encode, SS_2022_METHODS;
    ReadPair(cipher, key);
    ReadEncodedPair(cipher + ":" + key);
    HeadAuthority(HeadOf(cipher, key), host, port);
  }

  lemma ReadHead(cipher: string, key: string, host: string, port: nat, name: string)
    requires PlainWord(cipher) && PlainWord(key) && cipher != "" && HostText(host)
    ensures SsEntry(HeadOf(cipher, key) + "@" + host + ":" + Decimal.Print(port), name) ==
      if key == "" then None
      else Some(Blank("shadowsocks", name, host, port).(cipher := cipher, password := key))
  {
    hide PlainWord, HostText, EncodeUrlNoPad, Decimal.Print, Utf8.Encode, SS_2022_METHODS, SsEntry;
    if cipher in SS_2022_METHODS {
      ReadPlainHead(cipher, key, host, port, name);
    } else {
      ReadEncodedHead(cipher, key, host, port, name);
    }
  }

  lemma BuiltSs(sha: Hash, host: string, port: nat, u: User, s: Settings)
    ensures var cipher := SsCipher(u, s);
      BuildSs(sha, host, port, u, s) ==
        Link("ss", HeadOf(cipher, PskLink(sha, u.uuid, cipher)) + "@" + host + ":" + Decimal.Print(port) + "#" +
                   QuotePath("TiTaN-" + u.name + "-SS"))
  {
    hide SsCipher, PskLink, EncodeUrlNoPad, Decimal.Print, Utf8.Encode, SS_2022_METHODS, QuotePath, Link;
  }

  /** Every Shadowsocks link is read back as its method and key, in either form. A link is refused
      exactly when its key is empty, which for a legacy method means a user without a uuid. */
  lemma SsRoundTrip(sha: Hash, json: VmessJson.Json, host: string, port: nat, u: User, s: Settings)
    requires HostText(host)
    ensures ParseLink(json, BuildSs(sha, host, port, u, s)) ==
      if PskBytes(sha, u.uuid, SsCipher(u, s)) == [] then None else Some(SsLinkEntry(sha, host, port, u, s))
    ensures SsCipher(u, s) !in SS_2022_METHODS ==>
      (ParseLink(json, BuildSs(sha, host, port, u, s)) == None <==> u.uuid == "")
  {
    hide SsLinkEntry, ParseLink, SsEntry, SsCipher, PskLink, PskBytes, PlainWord, CredText, HostText, Unquote,
      QuotePath, HeadOf,
      Decimal.Print, SS_2022_METHODS, SS_METHODS, BuildSs, IsSpace, Link;
    var cipher := SsCipher(u, s);
    var key := PskLink(sha, u.uuid, cipher);
    var name := "TiTaN-" + u.name + "-SS";
    EntryMethod(sha, host, port, u, s);
    CipherServed(u, s);
    CipherWord(cipher);
    KeyWord(sha, u.uuid, cipher);
    PskLinkNotEmpty(sha, u.uuid, cipher);
    ReadName(name);
    BuiltSs(sha, host, port, u, s);
    HeadFacts(cipher, key, host, port);
    ReadSsLink(json, HeadOf(cipher, key) + "@" + host + ":" + Decimal.Print(port), QuotePath(name));
    ReadHead(cipher, key, host, port, name);
  }
}
