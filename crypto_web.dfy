/** The Web Crypto vault: AES-GCM (NIST SP 800-38D) blobs laid out as
    `iv(12) ++ ciphertext-with-tag` and stored as btoa text; the key is a hex
    string (base16, section 8 of RFC 4648). */
module CryptoWeb {
  import opened Common
  import opened JsText
  import opened Codecs

  /** AES-GCM through crypto.subtle: importKey('raw', ...) followed by encrypt or decrypt. */
  datatype AesGcm = AesGcm(
    /** (raw key, iv, plaintext) to the ciphertext with its tag; None: the key or the call is rejected. */
    seal: (seq<Byte>, seq<Byte>, seq<Byte>) -> Option<seq<Byte>>,
    /** (raw key, iv, ciphertext with tag) to the plaintext; None: rejected, a tag mismatch included. */
    open: (seq<Byte>, seq<Byte>, seq<Byte>) -> Option<seq<Byte>>
  )

  /** What the model assumes of AES-GCM: opening what was sealed under the same key and IV
      gives the plaintext back. */
  ghost predicate Sound(a: AesGcm) {
    forall k, iv, p :: a.seal(k, iv, p).Some? ==> a.open(k, iv, a.seal(k, iv, p).value) == Some(p)
  }

  /** `crypto.getRandomValues(new Uint8Array(12))` */
  const IvLength: nat := 12

  /** What encryptData and decryptData throw. */
  datatype CryptoError =
    | InvalidCharacter  // btoa or atob rejects its input
    | Rejected          // importKey, encrypt or decrypt rejects (for decrypt: authentication failed)

  /** A parseInt result stored into a Uint8Array: NaN becomes 0, other values wrap modulo 256. */
  function ToUint8(v: Option<int>): Byte {
    match v
    case None => 0
    case Some(n) => n % 256
  }

  /** hexToArrayBuffer: byte k is parseInt of characters 2k and 2k+1; an odd final
      character is written past the end of the array, which a Uint8Array ignores. */
  function HexDecoded(hex: string, c: Codecs): (bytes: seq<Byte>)
    ensures |bytes| == |hex| / 2
  {
    seq(|hex| / 2, k requires 0 <= k < |hex| / 2 => ToUint8(c.parseHex(hex[2 * k..2 * k + 2])))
  }

  /** Lower-case base16 text of the bytes, two digits per byte. */
  function HexEncoded(bytes: seq<Byte>): (hex: string)
    ensures |hex| == 2 * |bytes|
  {
    seq(2 * |bytes|, i requires 0 <= i < 2 * |bytes| =>
      if i % 2 == 0 then HexDigit(bytes[i / 2] / 16) else HexDigit(bytes[i / 2] % 16))
  }

  /** arrayBufferToBase64 */
  function Base64Encoded(bytes: seq<Byte>, c: Codecs): Option<string> {
    c.btoa(BinaryString(bytes))
  }

  /** base64ToArrayBuffer */
  function Base64Decoded(text: string, c: Codecs): Option<seq<Byte>> {
    match c.atob(text)
    case None => None
    case Some(binary) => Some(CharCodes(binary))
  }

  /** encryptData with the IV drawn: base64 of `iv ++ AES-GCM(key, iv, UTF-8(data))`. */
  function Encrypted(data: string, key: string, iv: seq<Byte>, c: Codecs, a: AesGcm)
    : Result<string, CryptoError>
  {
    match a.seal(HexDecoded(key, c), iv, c.utf8Encode(data))
    case None => Err(Rejected)
    case Some(sealed) =>
      match Base64Encoded(iv + sealed, c)
      case None => Err(InvalidCharacter)
      case Some(text) => Ok(text)
  }

  /** decryptData: bytes [0, 12) are the IV and [12, end) the ciphertext. */
  function Decrypted(blob: string, key: string, c: Codecs, a: AesGcm): Result<string, CryptoError> {
    match Base64Decoded(blob, c)
    case None => Err(InvalidCharacter)
    case Some(buffer) =>
      match a.open(HexDecoded(key, c), Slice(buffer, 0, 12), SliceFrom(buffer, 12))
      case None => Err(Rejected)
      case Some(plain) => Ok(c.utf8Decode(plain))
  }

  /** hexToArrayBuffer, with its loop stepping two characters at a time. */
  method HexToArrayBuffer(hex: string, c: Codecs) returns (buffer: seq<Byte>)
    ensures buffer == HexDecoded(hex, c)
  {
    var bytes := new Byte[|hex| / 2];
    var i := 0;
    while i < |hex|
      invariant 0 <= i <= |hex| + 1 && i % 2 == 0
      invariant forall k :: 0 <= k < bytes.Length && 2 * k < i ==>
        bytes[k] == ToUint8(c.parseHex(hex[2 * k..2 * k + 2]))
    {
      if i / 2 < bytes.Length {
        bytes[i / 2] := ToUint8(c.parseHex(Substring(hex, i, i + 2)));
      }
      i := i + 2;
    }
    buffer := bytes[..];
  }

  /** arrayBufferToBase64 */
  method ArrayBufferToBase64(bytes: seq<Byte>, c: Codecs) returns (r: Option<string>)
    ensures r == Base64Encoded(bytes, c)
  {
    var binary := BinaryStringOf(bytes);
    r := c.btoa(binary);
  }

  /** base64ToArrayBuffer, with its loop over the decoded characters. */
  method Base64ToArrayBuffer(text: string, c: Codecs) returns (r: Option<seq<Byte>>)
    ensures r == Base64Decoded(text, c)
  {
    var binary := c.atob(text);
    if binary.None? {
      return None;
    }
    var s := binary.value;
    var bytes := new Byte[|s|];
    for i := 0 to |s|
      invariant forall k :: 0 <= k < i ==> bytes[k] == (s[k] as int) % 256
    {
      bytes[i] := (s[i] as int) % 256;
    }
    assert bytes[..] == CharCodes(s);
    r := Some(bytes[..]);
  }

  /** `target.set(source, offset)` on a Uint8Array. */
  method SetAt(target: array<Byte>, source: seq<Byte>, offset: nat)
    requires offset + |source| <= target.Length
    modifies target
    ensures target[..] == old(target[..offset]) + source + old(target[offset + |source|..])
  {
    for i := 0 to |source|
      invariant forall k :: 0 <= k < target.Length ==>
        target[k] == if offset <= k < offset + i then source[k - offset] else old(target[k])
    {
      target[offset + i] := source[i];
    }
  }

  /** encryptData, with the random IV as a parameter. */
  method EncryptData(data: string, key: string, iv: seq<Byte>, c: Codecs, a: AesGcm)
    returns (r: Result<string, CryptoError>)
    requires |iv| == IvLength
    ensures r == Encrypted(data, key, iv, c, a)
  {
    var keyBuffer := HexToArrayBuffer(key, c);
    var sealed := a.seal(keyBuffer, iv, c.utf8Encode(data));
    if sealed.None? {
      return Err(Rejected);
    }
    var encrypted := sealed.value;
    var result := new Byte[|iv| + |encrypted|];
    SetAt(result, iv, 0);
    SetAt(result, encrypted, |iv|);
    assert result[..] == iv + encrypted;
    var text := ArrayBufferToBase64(result[..], c);
    if text.None? {
      return Err(InvalidCharacter);
    }
    r := Ok(text.value);
  }

  /** decryptData */
  method DecryptData(blob: string, key: string, c: Codecs, a: AesGcm)
    returns (r: Result<string, CryptoError>)
    ensures r == Decrypted(blob, key, c, a)
  {
    var buffer := Base64ToArrayBuffer(blob, c);
    if buffer.None? {
      return Err(InvalidCharacter);
    }
    var iv := Slice(buffer.value, 0, 12);
    var encrypted := SliceFrom(buffer.value, 12);
    var keyBuffer := HexToArrayBuffer(key, c);
    var plain := a.open(keyBuffer, iv, encrypted);
    if plain.None? {
      return Err(Rejected);
    }
    r := Ok(c.utf8Decode(plain.value));
  }

  /** For well-formed hex of even length, byte k is the base-16 value of characters 2k and 2k+1. */
  lemma HexDecodedDigits(hex: string, c: Codecs)
    requires Lawful(c)
    requires |hex| % 2 == 0 && forall i :: 0 <= i < |hex| ==> IsHexDigit(hex[i])
    ensures |HexDecoded(hex, c)| == |hex| / 2
    ensures forall k :: 0 <= k < |hex| / 2 ==>
      HexDecoded(hex, c)[k] == 16 * HexValue(hex[2 * k]) + HexValue(hex[2 * k + 1])
  {
    forall k | 0 <= k < |hex| / 2
      ensures HexDecoded(hex, c)[k] == 16 * HexValue(hex[2 * k]) + HexValue(hex[2 * k + 1])
    {
      var pair := hex[2 * k..2 * k + 2];
      assert pair[0] == hex[2 * k] && pair[1] == hex[2 * k + 1];
    }
  }

  /** Decoding the hex text of a key gives the key back. */
  lemma HexRoundTrip(bytes: seq<Byte>, c: Codecs)
    requires Lawful(c)
    ensures HexDecoded(HexEncoded(bytes), c) == bytes
  {
    var hex := HexEncoded(bytes);
    HexDecodedDigits(hex, c);
    forall k | 0 <= k < |bytes| ensures HexDecoded(hex, c)[k] == bytes[k] {
      assert (2 * k) / 2 == k && (2 * k + 1) / 2 == k && (2 * k + 1) % 2 == 1;
      assert hex[2 * k] == HexDigit(bytes[k] / 16) && hex[2 * k + 1] == HexDigit(bytes[k] % 16);
    }
  }

  /** arrayBufferToBase64 always succeeds and base64ToArrayBuffer inverts it. */
  lemma Base64RoundTrip(bytes: seq<Byte>, c: Codecs)
    requires Lawful(c)
    ensures Base64Encoded(bytes, c).Some?
    ensures Base64Decoded(Base64Encoded(bytes, c).value, c) == Some(bytes)
  {
    BinaryStringRoundTrip(bytes, "");
  }

  /** The two slices decryptData takes of `iv ++ data` are exactly iv and data. */
  lemma LayoutSlices(iv: seq<Byte>, data: seq<Byte>)
    requires |iv| == IvLength
    ensures Slice(iv + data, 0, 12) == iv && SliceFrom(iv + data, 12) == data
  {
    assert (iv + data)[..12] == iv && (iv + data)[12..] == data;
  }

  /** encryptData fails only when AES-GCM rejects; otherwise its text decodes to
      the IV followed by the cipher output, 12 bytes longer than that output. */
  lemma EncryptLayout(data: string, key: string, iv: seq<Byte>, c: Codecs, a: AesGcm)
    requires Lawful(c) && |iv| == IvLength
    ensures Encrypted(data, key, iv, c, a).Ok? <==> a.seal(HexDecoded(key, c), iv, c.utf8Encode(data)).Some?
    ensures Encrypted(data, key, iv, c, a).Ok? ==>
      var sealed := a.seal(HexDecoded(key, c), iv, c.utf8Encode(data)).value;
      && Base64Decoded(Encrypted(data, key, iv, c, a).value, c) == Some(iv + sealed)
      && |iv + sealed| == 12 + |sealed|
  {
    var sealed := a.seal(HexDecoded(key, c), iv, c.utf8Encode(data));
    if sealed.Some? {
      Base64RoundTrip(iv + sealed.value, c);
    }
  }

  /** decryptData undoes encryptData under the same key, except that TextDecoder
      drops a leading byte order mark: text that does not start with U+FEFF comes
      back unchanged, and text that does comes back without it. */
  lemma RoundTrip(data: string, key: string, iv: seq<Byte>, c: Codecs, a: AesGcm)
    requires Lawful(c) && Sound(a) && |iv| == IvLength
    requires Encrypted(data, key, iv, c, a).Ok?
    ensures (|data| == 0 || data[0] != Bom) ==> Decrypted(Encrypted(data, key, iv, c, a).value, key, c, a) == Ok(data)
    ensures |data| > 0 && data[0] == Bom ==> Decrypted(Encrypted(data, key, iv, c, a).value, key, c, a) == Ok(data[1..])
  {
    var k := HexDecoded(key, c);
    EncryptLayout(data, key, iv, c, a);
    var sealed := a.seal(k, iv, c.utf8Encode(data)).value;
    LayoutSlices(iv, sealed);
    assert a.open(k, iv, sealed) == Some(c.utf8Encode(data));
  }

  /** A rejected AES-GCM decryption surfaces as the error; no plaintext is produced. */
  lemma DecryptPropagatesRejection(blob: string, key: string, c: Codecs, a: AesGcm)
    requires Base64Decoded(blob, c).Some?
    requires var buffer := Base64Decoded(blob, c).value;
      a.open(HexDecoded(key, c), Slice(buffer, 0, 12), SliceFrom(buffer, 12)).None?
    ensures Decrypted(blob, key, c, a) == Err(Rejected)
  {
  }
}
