/** The Node vault: AES-256-GCM (NIST SP 800-38D) blobs laid out as
    `iv(16) ++ ciphertext ++ tag(16)` and stored as base64 text. */
module CryptoNode {
  import opened Common
  import opened JsText
  import CryptoWeb

  /** The Node platform calls the vault makes. */
  datatype NodeCrypto = NodeCrypto(
    /** Buffer.from(key, 'hex') */
    fromHex: string -> seq<Byte>,
    /** buffer.toString('base64') */
    toBase64: seq<Byte> -> string,
    /** Buffer.from(text, 'base64') */
    fromBase64: string -> seq<Byte>,
    /** createCipheriv('aes-256-gcm', key, iv), update and final on the UTF-8 of the text,
        then getAuthTag: (ciphertext, tag); None: it throws. */
    encrypt: (seq<Byte>, seq<Byte>, string) -> Option<(seq<Byte>, seq<Byte>)>,
    /** createDecipheriv('aes-256-gcm', key, iv), setAuthTag(tag), update and final:
        the UTF-8 plaintext; None: it throws, a tag that does not authenticate included. */
    decrypt: (seq<Byte>, seq<Byte>, seq<Byte>, seq<Byte>) -> Option<string>
  )

  /** What the model assumes of Node: base64 decoding inverts encoding, the GCM tag
      is 16 bytes, and decryption with the tag of an encryption gives its text back. */
  ghost predicate Sound(n: NodeCrypto) {
    && (forall b :: n.fromBase64(n.toBase64(b)) == b)
    && (forall k, iv, p :: n.encrypt(k, iv, p).Some? ==> |n.encrypt(k, iv, p).value.1| == TagLength)
    && (forall k, iv, p :: n.encrypt(k, iv, p).Some? ==>
          var (ct, tag) := n.encrypt(k, iv, p).value;
          n.decrypt(k, iv, ct, tag) == Some(p))
  }

  /** `randomBytes(16)` */
  const IvLength: nat := 16
  const TagLength: nat := 16

  /** The three fields decryptData reads out of a decoded blob. */
  datatype Fields = Fields(iv: seq<Byte>, text: seq<Byte>, tag: seq<Byte>)

  /** `buffer.slice(0, 16)`, `buffer.slice(buffer.length - 16)` and
      `buffer.slice(16, buffer.length - 16)`, with Buffer's relative indices. */
  function Unframe(buffer: seq<Byte>): Fields {
    var iv := Slice(buffer, 0, 16);
    var tag := SliceFrom(buffer, |buffer| - 16);
    var text := Slice(buffer, 16, |buffer| - 16);
    Fields(iv, text, tag)
  }

  /** encryptData with the IV drawn; the cipher's base64 output is read back into
      bytes before `Buffer.concat([iv, ciphertext, tag])`. None: it throws. */
  function Encrypted(data: string, key: string, iv: seq<Byte>, n: NodeCrypto): Option<string> {
    match n.encrypt(n.fromHex(key), iv, data)
    case None => None
    case Some(sealed) =>
      var ciphertext := n.fromBase64(n.toBase64(sealed.0));
      Some(n.toBase64(iv + ciphertext + sealed.1))
  }

  /** decryptData. None: it throws. */
  function Decrypted(blob: string, key: string, n: NodeCrypto): Option<string> {
    var fields := Unframe(n.fromBase64(blob));
    n.decrypt(n.fromHex(key), fields.iv, fields.text, fields.tag)
  }

  /** From 32 bytes on, the three slices are disjoint and put back together give the buffer. */
  lemma UnframeReassembles(buffer: seq<Byte>)
    requires |buffer| >= IvLength + TagLength
    ensures var f := Unframe(buffer);
      && f.iv + f.text + f.tag == buffer
      && |f.iv| == IvLength && |f.tag| == TagLength
  {
    assert buffer[..16] + buffer[16..|buffer| - 16] + buffer[|buffer| - 16..] == buffer;
  }

  /** A buffer shorter than 32 bytes has no ciphertext; below 16 bytes the tag is
      what a negative relative start leaves: the whole buffer up to 8 bytes, the
      last 16 - n bytes after that. */
  lemma ShortBuffer(buffer: seq<Byte>)
    requires |buffer| < IvLength + TagLength
    ensures Unframe(buffer).text == []
    ensures |buffer| < TagLength ==>
      Unframe(buffer).tag == if |buffer| <= 8 then buffer else buffer[2 * |buffer| - 16..]
  {
    if |buffer| <= 8 {
      assert buffer[0..|buffer|] == buffer;
    }
  }

  /** Decoding a blob that encryptData wrote gives back the IV, ciphertext and tag it wrote. */
  lemma UnframeFramed(iv: seq<Byte>, ciphertext: seq<Byte>, tag: seq<Byte>)
    requires |iv| == IvLength && |tag| == TagLength
    ensures Unframe(iv + ciphertext + tag) == Fields(iv, ciphertext, tag)
  {
    var b := iv + ciphertext + tag;
    assert b[..16] == iv && b[16..|b| - 16] == ciphertext && b[|b| - 16..] == tag;
  }

  /** encryptData fails only when the cipher throws, and its text decodes to
      `iv ++ ciphertext ++ tag`, 32 bytes longer than the ciphertext. */
  lemma EncryptLayout(data: string, key: string, iv: seq<Byte>, n: NodeCrypto)
    requires Sound(n) && |iv| == IvLength
    ensures Encrypted(data, key, iv, n).Some? <==> n.encrypt(n.fromHex(key), iv, data).Some?
    ensures Encrypted(data, key, iv, n).Some? ==>
      var (ct, tag) := n.encrypt(n.fromHex(key), iv, data).value;
      && n.fromBase64(Encrypted(data, key, iv, n).value) == iv + ct + tag
      && |iv + ct + tag| == |ct| + IvLength + TagLength
  {
  }

  /** decryptData undoes encryptData under the same key. */
  lemma RoundTrip(data: string, key: string, iv: seq<Byte>, n: NodeCrypto)
    requires Sound(n) && |iv| == IvLength
    requires Encrypted(data, key, iv, n).Some?
    ensures Decrypted(Encrypted(data, key, iv, n).value, key, n) == Some(data)
  {
    var k := n.fromHex(key);
    var (ct, tag) := n.encrypt(k, iv, data).value;
    EncryptLayout(data, key, iv, n);
    UnframeFramed(iv, ct, tag);
  }

  /** The two layouts are not interchangeable: the web vault reads the first 12 of the
      16 IV bytes of a Node blob as its IV and the rest as ciphertext. */
  lemma WebReadsNodeBlobWrongly(iv: seq<Byte>, ciphertext: seq<Byte>, tag: seq<Byte>)
    requires |iv| == IvLength && |tag| == TagLength
    ensures var b := iv + ciphertext + tag;
      && Slice(b, 0, CryptoWeb.IvLength) == iv[..12] != iv
      && SliceFrom(b, CryptoWeb.IvLength) == iv[12..] + ciphertext + tag
  {
    var b := iv + ciphertext + tag;
    assert b[..12] == iv[..12];
    assert b[12..] == iv[12..] + ciphertext + tag;
  }
}
