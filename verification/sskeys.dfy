/** Shadowsocks pre-shared keys: one derivation, two spellings (app/sskeys.py).
    SHA-256 is the parameter `sha`; nothing is assumed about it. */
module SsKeys {
  import opened Wrappers
  import opened Text
  import opened Utf8
  import opened Base64
  import opened Users

  type Hash = seq<Byte> -> seq<Byte>

  /** 16 bytes for the 128-bit method, 32 for the other 2022 methods. */
  function KeyLength(cipher: string): nat {
    if cipher == "2022-blake3-aes-128-gcm" then 16 else 32
  }

  /** `b[:n]` */
  function Take(b: seq<Byte>, n: nat): seq<Byte> {
    if |b| <= n then b else b[..n]
  }

  function PskBytes(sha: Hash, uuid: string, cipher: string): seq<Byte> {
    if cipher in SS_2022_METHODS then Take(sha(Encode("titan-ss:" + uuid)), KeyLength(cipher))
    else Take(Encode(uuid), 16)
  }

  function PskLink(sha: Hash, uuid: string, cipher: string): string {
    EncodeUrlNoPad(PskBytes(sha, uuid, cipher))
  }

  function PskInbound(sha: Hash, uuid: string, cipher: string): string {
    if cipher in SS_2022_METHODS then Encode64(PskBytes(sha, uuid, cipher))
    else PskLink(sha, uuid, cipher)
  }

  /** Both spellings carry the same bytes: the client re-pads the URL form, the server decodes
      the standard form (2022 methods) or takes the link's own key (legacy methods). */
  lemma SameKey(sha: Hash, uuid: string, cipher: string)
    ensures var link := PskLink(sha, uuid, cipher);
      DecodeUrl(link + Padding(|link|)) == Some(PskBytes(sha, uuid, cipher))
    ensures cipher in SS_2022_METHODS ==>
      Decode64(PskInbound(sha, uuid, cipher)) ==
      DecodeUrl(PskLink(sha, uuid, cipher) + Padding(|PskLink(sha, uuid, cipher)|))
    ensures cipher !in SS_2022_METHODS ==> PskInbound(sha, uuid, cipher) == PskLink(sha, uuid, cipher)
  {
    DecodeUrlNoPad(PskBytes(sha, uuid, cipher));
    DecodeEncode64(PskBytes(sha, uuid, cipher));
  }

  /** Which bytes the key is, for a hash of 32 bytes: 16 of them for the 128-bit method of 2022 and all
      32 for the other two; the first 16 of the uuid itself for a legacy method. */
  lemma PskExactly(sha: Hash, uuid: string, cipher: string)
    requires forall b :: |sha(b)| == 32
    ensures var key, digest := PskBytes(sha, uuid, cipher), sha(Encode("titan-ss:" + uuid));
      && (cipher == "2022-blake3-aes-128-gcm" ==> key == digest[..16])
      && (cipher == "2022-blake3-aes-256-gcm" || cipher == "2022-blake3-chacha20-poly1305" ==> key == digest)
      && (cipher == "aes-128-gcm" || cipher == "aes-256-gcm" || cipher == "chacha20-ietf-poly1305" ==>
            key <= Encode(uuid) && (|key| == 16 || (|key| < 16 && key == Encode(uuid))))
  {
    hide Encode;
  }

  lemma PskLinkChars(sha: Hash, uuid: string, cipher: string)
    ensures var k := PskLink(sha, uuid, cipher);
      Ascii(k) && forall i :: 0 <= i < |k| ==> k[i] !in "%@?#:" && !IsSpace(k[i])
  {
    var b := PskBytes(sha, uuid, cipher);
    EncodeUrlBody(b);
    var k := PskLink(sha, uuid, cipher);
    forall i | 0 <= i < |k|
      ensures (k[i] as int) < 128 && k[i] !in "%@?#:" && !IsSpace(k[i])
    {
      assert SymValue(k[i]) < 62 || k[i] == '-' || k[i] == '_';
    }
  }

  /** The key is empty only for a user without a uuid (or a hash that yields nothing). */
  lemma PskLinkNotEmpty(sha: Hash, uuid: string, cipher: string)
    ensures PskLink(sha, uuid, cipher) == "" <==> PskBytes(sha, uuid, cipher) == []
    ensures cipher !in SS_2022_METHODS ==> (PskLink(sha, uuid, cipher) == "" <==> uuid == "")
  {
    EncodeUrlBody(PskBytes(sha, uuid, cipher));
    assert uuid != "" ==> Encode(uuid) == EncodeChar(uuid[0]) + Encode(uuid[1..]);
  }
}
