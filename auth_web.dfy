/** Session tokens: compact JWS (section 7.1 of RFC 7515) signed with HS256
    (section 3.2 of RFC 7518), carrying `iat` and `exp` (sections 4.1.6 and
    4.1.4 of RFC 7519). Header and payload are plain btoa text with the
    padding stripped; only the signature is base64url (section 5 of RFC 4648). */
module AuthWeb {
  import opened Common
  import opened JsText
  import opened Codecs

  /** HMAC-SHA-256 through crypto.subtle: importKey('raw', key, HMAC) followed by sign,
      from (raw key bytes, message bytes) to the MAC; None: importKey rejects the key. */
  type Hmac = (seq<Byte>, seq<Byte>) -> Option<seq<Byte>>

  /** What the model assumes of the HMAC: the Web Cryptography API's HMAC key import
      rejects zero-length key data with a DataError and accepts every other key. */
  ghost predicate KeyImport(hmac: Hmac) {
    forall k, d :: hmac(k, d).Some? <==> |k| > 0
  }

  /** Seven days, in seconds. */
  const Lifetime: int := 7 * 24 * 60 * 60

  /** What generateJwt and verifyJwt throw. */
  datatype JwtError =
    | InvalidTokenFormat  // 'Invalid token format'
    | InvalidSignature    // 'Invalid signature'
    | TokenExpired        // 'Token expired'
    | InvalidCharacter    // btoa or atob rejects its input
    | JsonSyntax          // JSON.parse rejects the payload text
    | NullPayload         // reading `exp` of a null payload is a TypeError
    | KeyRejected         // importKey rejects the HMAC key (a DataError)

  /** `Math.floor(Date.now() / 1000)` for a clock reading in milliseconds. */
  function Seconds(nowMs: int): int {
    nowMs / 1000
  }

  function JwtHeader(): Json {
    JObj(map["alg" := JStr("HS256"), "typ" := JStr("JWT")])
  }

  /** The payload after `payload.iat = now; payload.exp = now + 7 days`. */
  function Stamp(fields: map<string, Json>, now: int): (r: map<string, Json>)
    ensures r.Keys == fields.Keys + {"iat", "exp"}
    ensures r["iat"] == JNum(now) && r["exp"] == JNum(now + Lifetime)
    ensures forall k :: k in fields && k != "iat" && k != "exp" ==> r[k] == fields[k]
  {
    fields["iat" := JNum(now)]["exp" := JNum(now + Lifetime)]
  }

  /** `btoa(JSON.stringify(v)).replace(/=+$/, '')` */
  function EncodeSegment(v: Json, c: Codecs): Option<string> {
    match c.btoa(c.stringify(v))
    case None => None
    case Some(t) => Some(StripTrailing(t, '='))
  }

  /** arrayBufferToBase64Url: btoa of the binary string, then '+' to '-', '/' to '_'
      and the padding stripped. */
  function Base64Url(bytes: seq<Byte>, c: Codecs): Option<string> {
    match c.btoa(BinaryString(bytes))
    case None => None
    case Some(t) => Some(StripTrailing(ReplaceAll(ReplaceAll(t, '+', '-'), '/', '_'), '='))
  }

  /** createHmacSignature: the base64url HMAC of the UTF-8 data under the UTF-8 secret. */
  function Signature(data: string, secret: string, c: Codecs, hmac: Hmac): Result<string, JwtError> {
    match hmac(c.utf8Encode(secret), c.utf8Encode(data))
    case None => Err(KeyRejected)
    case Some(mac) =>
      match Base64Url(mac, c)
      case None => Err(InvalidCharacter)
      case Some(t) => Ok(t)
  }

  /** The token generateJwt returns for a caller payload with these fields. */
  function IssueToken(fields: map<string, Json>, secret: string, nowMs: int, c: Codecs, hmac: Hmac)
    : Result<string, JwtError>
  {
    var payload := JObj(Stamp(fields, Seconds(nowMs)));
    match EncodeSegment(JwtHeader(), c)
    case None => Err(InvalidCharacter)
    case Some(h) =>
      match EncodeSegment(payload, c)
      case None => Err(InvalidCharacter)
      case Some(p) =>
        match Signature(h + "." + p, secret, c, hmac)
        case Err(e) => Err(e)
        case Ok(s) => Ok(h + "." + p + "." + s)
  }

  /** The three parts carry the signature of the first two joined by '.'. */
  predicate SignatureMatches(parts: seq<string>, secret: string, c: Codecs, hmac: Hmac) {
    |parts| == 3 && Signature(parts[0] + "." + parts[1], secret, c, hmac) == Ok(parts[2])
  }

  /** `value < now` under JavaScript's comparison, for the values modelled. */
  predicate Before(v: Json, now: int) {
    match v
    case JNum(n) => n < now
    case JBool(b) => (if b then 1 else 0) < now
    case _ => false
  }

  /** `payload.exp && payload.exp < now` */
  predicate Expired(payload: Json, now: int) {
    var exp := Property(payload, "exp");
    exp.Some? && Truthy(exp.value) && Before(exp.value, now)
  }

  /** The decoding half of verifyJwt: `JSON.parse(atob(segment))`, then the expiry check. */
  function DecodePayload(segment: string, now: int, c: Codecs): (r: Result<Json, JwtError>)
    ensures r.Ok? ==> r.value != JNull && !Expired(r.value, now)
    ensures r.Ok? <==>
      && c.atob(segment).Some?
      && c.parse(c.atob(segment).value).Ok?
      && c.parse(c.atob(segment).value).value != JNull
      && !Expired(c.parse(c.atob(segment).value).value, now)
    ensures r.Ok? ==> r.value == c.parse(c.atob(segment).value).value
  {
    match c.atob(segment)
    case None => Err(InvalidCharacter)
    case Some(text) =>
      match c.parse(text)
      case Err(_) => Err(JsonSyntax)
      case Ok(payload) =>
        if payload.JNull? then Err(NullPayload)
        else if Expired(payload, now) then Err(TokenExpired)
        else Ok(payload)
  }

  /** verifyJwt: part count, then signature, then payload decoding, then expiry. */
  function VerifyJwt(token: string, secret: string, nowMs: int, c: Codecs, hmac: Hmac)
    : (r: Result<Json, JwtError>)
    ensures r == Err(InvalidTokenFormat) <==> |Split(token, '.')| != 3
    ensures r.Ok? || r == Err(TokenExpired) ==> SignatureMatches(Split(token, '.'), secret, c, hmac)
    ensures r.Ok? ==> r.value != JNull && !Expired(r.value, Seconds(nowMs))
  {
    var parts := Split(token, '.');
    if |parts| != 3 then Err(InvalidTokenFormat)
    else
      match Signature(parts[0] + "." + parts[1], secret, c, hmac)
      case Err(e) => Err(e)
      case Ok(expected) =>
        if parts[2] != expected then Err(InvalidSignature)
        else DecodePayload(parts[1], Seconds(nowMs), c)
  }

  /** A JavaScript object that generateJwt writes `iat` and `exp` into. */
  class JsObject {
    var fields: map<string, Json>

    constructor (fields: map<string, Json>)
      ensures this.fields == fields
    {
      this.fields := fields;
    }
  }

  /** generateJwt: stamps the caller's payload object in place, then builds the token. */
  method GenerateJwt(payload: JsObject, secret: string, nowMs: int, c: Codecs, hmac: Hmac)
    returns (r: Result<string, JwtError>)
    modifies payload
    ensures payload.fields == Stamp(old(payload.fields), Seconds(nowMs))
    ensures r == IssueToken(old(payload.fields), secret, nowMs, c, hmac)
  {
    var now := nowMs / 1000;
    payload.fields := payload.fields["iat" := JNum(now)];
    payload.fields := payload.fields["exp" := JNum(now + Lifetime)];
    var encodedHeader := EncodeSegment(JwtHeader(), c);
    var encodedPayload := EncodeSegment(JObj(payload.fields), c);
    if encodedHeader.None? || encodedPayload.None? {
      return Err(InvalidCharacter);
    }
    var data := encodedHeader.value + "." + encodedPayload.value;
    var signature := CreateHmacSignature(data, secret, c, hmac);
    if signature.Err? {
      return Err(signature.error);
    }
    r := Ok(data + "." + signature.value);
  }

  /** createHmacSignature */
  method CreateHmacSignature(data: string, secret: string, c: Codecs, hmac: Hmac)
    returns (r: Result<string, JwtError>)
    ensures r == Signature(data, secret, c, hmac)
  {
    var mac := hmac(c.utf8Encode(secret), c.utf8Encode(data));
    if mac.None? {
      return Err(KeyRejected);
    }
    var signature := ArrayBufferToBase64Url(mac.value, c);
    if signature.None? {
      return Err(InvalidCharacter);
    }
    r := Ok(signature.value);
  }

  /** arrayBufferToBase64Url */
  method ArrayBufferToBase64Url(bytes: seq<Byte>, c: Codecs) returns (r: Option<string>)
    ensures r == Base64Url(bytes, c)
  {
    var binary := BinaryStringOf(bytes);
    var encoded := c.btoa(binary);
    if encoded.None? {
      return None;
    }
    r := Some(StripTrailing(ReplaceAll(ReplaceAll(encoded.value, '+', '-'), '/', '_'), '='));
  }

  /** A header or payload segment: base64 characters and no '='. */
  predicate IsPlainSegment(t: string) {
    forall i :: 0 <= i < |t| ==> IsBase64Char(t[i]) && t[i] != '='
  }

  /** A signature segment: the base64url alphabet only, so no '+', '/' or '='. */
  predicate IsUrlSegment(t: string) {
    forall i :: 0 <= i < |t| ==>
      'A' <= t[i] <= 'Z' || 'a' <= t[i] <= 'z' || '0' <= t[i] <= '9' || t[i] == '-' || t[i] == '_'
  }

  /** Header and payload segments exist exactly for Latin-1 JSON text and hold no padding. */
  lemma EncodeSegmentClean(v: Json, c: Codecs)
    requires Lawful(c)
    ensures EncodeSegment(v, c).Some? <==> Latin1(c.stringify(v))
    ensures EncodeSegment(v, c).Some? ==> IsPlainSegment(EncodeSegment(v, c).value)
    ensures EncodeSegment(v, c).Some? ==> '.' !in EncodeSegment(v, c).value
  {
    var t := c.btoa(c.stringify(v));
    if t.Some? {
      StrippedBase64HasNoPad(t.value);
      var s := StripTrailing(t.value, '=');
      forall i | 0 <= i < |s| ensures IsBase64Char(s[i]) && s[i] != '=' {
        assert s[i] == t.value[i];
      }
    }
  }

  /** The signature segment always exists and is pure base64url text. */
  lemma Base64UrlClean(bytes: seq<Byte>, c: Codecs)
    requires Lawful(c)
    ensures Base64Url(bytes, c).Some?
    ensures IsUrlSegment(Base64Url(bytes, c).value)
    ensures '.' !in Base64Url(bytes, c).value
  {
    var t := c.btoa(BinaryString(bytes));
    assert t.Some?;
    UrlTranslationClean(t.value);
  }

  /** Base64 text with '+' and '/' translated and the padding stripped is pure base64url text. */
  lemma UrlTranslationClean(t: string)
    requires IsBase64Text(t)
    ensures var s := StripTrailing(ReplaceAll(ReplaceAll(t, '+', '-'), '/', '_'), '=');
      IsUrlSegment(s) && '.' !in s
  {
    var u := ReplaceAll(ReplaceAll(t, '+', '-'), '/', '_');
    var s := StripTrailing(u, '=');
    assert forall i, j :: 0 <= i < j < |u| && u[i] == '=' ==> u[j] == '=' by {
      forall i, j | 0 <= i < j < |u| && u[i] == '=' ensures u[j] == '=' {
        assert t[i] == '=';
      }
    }
    forall i | 0 <= i < |s| ensures s[i] != '=' {
      if i < |s| - 1 {
        assert s[|s| - 1] == u[|s| - 1];
      }
    }
    forall i | 0 <= i < |s|
      ensures 'A' <= s[i] <= 'Z' || 'a' <= s[i] <= 'z' || '0' <= s[i] <= '9' || s[i] == '-' || s[i] == '_'
    {
      assert s[i] == u[i];
      assert IsBase64Char(t[i]);
    }
  }

  /** Under the codec and key-import laws a signature exists exactly for a non-empty
      secret; for the empty one importKey rejects the key. */
  lemma SignatureExists(data: string, secret: string, c: Codecs, hmac: Hmac)
    requires Lawful(c) && KeyImport(hmac)
    ensures Signature(data, secret, c, hmac).Ok? <==> secret != ""
    ensures secret == "" ==> Signature(data, secret, c, hmac) == Err(KeyRejected)
  {
    var mac := hmac(c.utf8Encode(secret), c.utf8Encode(data));
    assert mac.Some? <==> secret != "";
    if mac.Some? {
      Base64UrlClean(mac.value, c);
    }
  }

  /** generateJwt fails exactly when the header or the stamped payload is not Latin-1
      JSON text (btoa throws) or the secret is empty (importKey throws); with Latin-1
      segments and an empty secret the failure is the rejected key. */
  lemma IssueTokenSucceeds(fields: map<string, Json>, secret: string, nowMs: int, c: Codecs, hmac: Hmac)
    requires Lawful(c) && KeyImport(hmac)
    ensures IssueToken(fields, secret, nowMs, c, hmac).Ok? <==>
      && Latin1(c.stringify(JwtHeader()))
      && Latin1(c.stringify(JObj(Stamp(fields, Seconds(nowMs)))))
      && secret != ""
    ensures Latin1(c.stringify(JwtHeader())) && Latin1(c.stringify(JObj(Stamp(fields, Seconds(nowMs))))) && secret == "" ==>
      IssueToken(fields, secret, nowMs, c, hmac) == Err(KeyRejected)
  {
    EncodeSegmentClean(JwtHeader(), c);
    EncodeSegmentClean(JObj(Stamp(fields, Seconds(nowMs))), c);
    var h := EncodeSegment(JwtHeader(), c);
    var p := EncodeSegment(JObj(Stamp(fields, Seconds(nowMs))), c);
    if h.Some? && p.Some? {
      SignatureExists(h.value + "." + p.value, secret, c, hmac);
    }
  }

  /** A computed signature is pure base64url text. */
  lemma SignatureClean(data: string, secret: string, c: Codecs, hmac: Hmac)
    requires Lawful(c)
    requires Signature(data, secret, c, hmac).Ok?
    ensures IsUrlSegment(Signature(data, secret, c, hmac).value)
    ensures '.' !in Signature(data, secret, c, hmac).value
  {
    Base64UrlClean(hmac(c.utf8Encode(secret), c.utf8Encode(data)).value, c);
  }

  /** `a + "." + b + "." + d` splits back into a, b and d when none holds a '.'. */
  lemma SplitThree(a: string, b: string, d: string)
    requires '.' !in a && '.' !in b && '.' !in d
    ensures Split(a + "." + b + "." + d, '.') == [a, b, d]
  {
    var parts := [a, b, d];
    assert parts[1..] == [b, d] && parts[1..][1..] == [d];
    assert Join([d], '.') == d;
    assert Join([b, d], '.') == b + ['.'] + d;
    assert Join(parts, '.') == a + ['.'] + (b + ['.'] + d);
    assert a + "." + b + "." + d == a + ['.'] + (b + ['.'] + d);
    SplitJoin(parts, '.');
  }

  /** A generated token splits into exactly three clean parts, the third being the
      signature over exactly the first two joined by '.'. */
  lemma IssuedTokenParts(fields: map<string, Json>, secret: string, nowMs: int, c: Codecs, hmac: Hmac)
    requires Lawful(c)
    requires IssueToken(fields, secret, nowMs, c, hmac).Ok?
    ensures var parts := Split(IssueToken(fields, secret, nowMs, c, hmac).value, '.');
      && |parts| == 3
      && Some(parts[0]) == EncodeSegment(JwtHeader(), c)
      && Some(parts[1]) == EncodeSegment(JObj(Stamp(fields, Seconds(nowMs))), c)
      && SignatureMatches(parts, secret, c, hmac)
      && IsPlainSegment(parts[0]) && IsPlainSegment(parts[1]) && IsUrlSegment(parts[2])
  {
    var payload := JObj(Stamp(fields, Seconds(nowMs)));
    EncodeSegmentClean(JwtHeader(), c);
    EncodeSegmentClean(payload, c);
    var h := EncodeSegment(JwtHeader(), c).value;
    var p := EncodeSegment(payload, c).value;
    var sig := Signature(h + "." + p, secret, c, hmac);
    assert sig.Ok? && IssueToken(fields, secret, nowMs, c, hmac).value == h + "." + p + "." + sig.value;
    SignatureClean(h + "." + p, secret, c, hmac);
    SplitThree(h, p, sig.value);
  }

  /** verifyJwt accepts a token generateJwt issued with the same secret and returns the
      stamped payload as it was written, until the end of its seventh day, and reports it
      expired from the second after. */
  lemma {:induction false} VerifyIssued(fields: map<string, Json>, secret: string, issuedMs: int,
                                        nowMs: int, c: Codecs, hmac: Hmac)
    requires Lawful(c)
    requires issuedMs >= 0
    requires IssueToken(fields, secret, issuedMs, c, hmac).Ok?
    ensures VerifyJwt(IssueToken(fields, secret, issuedMs, c, hmac).value, secret, nowMs, c, hmac) ==
      if Seconds(nowMs) > Seconds(issuedMs) + Lifetime then Err(TokenExpired)
      else Ok(JObj(Stamp(fields, Seconds(issuedMs))))
  {
    var payload := JObj(Stamp(fields, Seconds(issuedMs)));
    var token := IssueToken(fields, secret, issuedMs, c, hmac).value;
    IssuedTokenParts(fields, secret, issuedMs, c, hmac);
    var parts := Split(token, '.');
    var text := c.stringify(payload);
    assert c.btoa(text).Some?;
    assert parts[1] == StripTrailing(c.btoa(text).value, '=');
    assert c.atob(parts[1]) == Some(text);
    assert c.parse(text) == Ok(payload);
    StampedExpiry(fields, Seconds(issuedMs), Seconds(nowMs));
    VerifyDecodes(token, secret, nowMs, c, hmac, text, payload);
  }

  /** A stamped payload with a non-negative issue time is expired exactly after `iat + 7 days`. */
  lemma StampedExpiry(fields: map<string, Json>, issued: int, now: int)
    requires issued >= 0
    ensures Expired(JObj(Stamp(fields, issued)), now) <==> now > issued + Lifetime
  {
    var stamped := Stamp(fields, issued);
    assert "exp" in stamped;
    assert Property(JObj(stamped), "exp") == Some(JNum(issued + Lifetime));
  }

  /** Under the codec laws a signature can be computed whenever the secret is not
      empty, so a three-part token whose third part is not the HMAC of the first two
      is 'Invalid signature', one whose third part is goes on to payload decoding, and
      with an empty secret every three-part token fails with the rejected key. */
  lemma VerifyChecksSignature(token: string, secret: string, nowMs: int, c: Codecs, hmac: Hmac)
    requires Lawful(c) && KeyImport(hmac)
    requires |Split(token, '.')| == 3
    ensures var parts := Split(token, '.');
      secret != "" && !SignatureMatches(parts, secret, c, hmac) ==>
        VerifyJwt(token, secret, nowMs, c, hmac) == Err(InvalidSignature)
    ensures secret == "" ==> VerifyJwt(token, secret, nowMs, c, hmac) == Err(KeyRejected)
    ensures var parts := Split(token, '.');
      SignatureMatches(parts, secret, c, hmac) ==>
        VerifyJwt(token, secret, nowMs, c, hmac) == DecodePayload(parts[1], Seconds(nowMs), c)
  {
    var parts := Split(token, '.');
    SignatureExists(parts[0] + "." + parts[1], secret, c, hmac);
  }

  /** An empty secret fails closed: generateJwt never issues a token and verifyJwt
      never accepts one, whatever the token. */
  lemma EmptySecretFailsClosed(fields: map<string, Json>, token: string, nowMs: int, c: Codecs, hmac: Hmac)
    requires Lawful(c) && KeyImport(hmac)
    ensures IssueToken(fields, "", nowMs, c, hmac).Err?
    ensures VerifyJwt(token, "", nowMs, c, hmac).Err?
  {
    var h := EncodeSegment(JwtHeader(), c);
    var p := EncodeSegment(JObj(Stamp(fields, Seconds(nowMs))), c);
    if h.Some? && p.Some? {
      SignatureExists(h.value + "." + p.value, "", c, hmac);
    }
    var parts := Split(token, '.');
    if |parts| == 3 {
      SignatureExists(parts[0] + "." + parts[1], "", c, hmac);
    }
  }

  /** Once the format and signature checks pass and the payload decodes, only expiry decides. */
  lemma VerifyDecodes(token: string, secret: string, nowMs: int, c: Codecs, hmac: Hmac,
                      text: string, payload: Json)
    requires SignatureMatches(Split(token, '.'), secret, c, hmac)
    requires c.atob(Split(token, '.')[1]) == Some(text)
    requires c.parse(text) == Ok(payload) && payload != JNull
    ensures VerifyJwt(token, secret, nowMs, c, hmac) ==
      if Expired(payload, Seconds(nowMs)) then Err(TokenExpired) else Ok(payload)
  {
    assert VerifyJwt(token, secret, nowMs, c, hmac) == DecodePayload(Split(token, '.')[1], Seconds(nowMs), c);
  }

  /** The payload of a token whose signature verifies is never expired while `exp` is
      still the current second or later; a payload without `exp` never expires. */
  lemma ExpiryBoundary(payload: Json, now: int)
    requires payload.JObj?
    ensures "exp" !in payload.fields ==> !Expired(payload, now)
    ensures "exp" in payload.fields && payload.fields["exp"].JNum? && payload.fields["exp"].n != 0 ==>
      (Expired(payload, now) <==> payload.fields["exp"].n < now)
  {
  }

  /** The header segment is never decoded: two tokens with the same payload segment and
      each a valid signature verify to the same outcome. */
  lemma VerifyIgnoresHeader(h1: string, h2: string, p: string, s1: string, s2: string,
                            secret: string, nowMs: int, c: Codecs, hmac: Hmac)
    requires '.' !in h1 && '.' !in h2 && '.' !in p && '.' !in s1 && '.' !in s2
    requires Signature(h1 + "." + p, secret, c, hmac) == Ok(s1)
    requires Signature(h2 + "." + p, secret, c, hmac) == Ok(s2)
    ensures VerifyJwt(h1 + "." + p + "." + s1, secret, nowMs, c, hmac) ==
            VerifyJwt(h2 + "." + p + "." + s2, secret, nowMs, c, hmac)
  {
    SplitThree(h1, p, s1);
    SplitThree(h2, p, s2);
  }

  /** Issued at 1700000000 for {sub: "t1", email: "a@b.com"}: accepted a second later with
      exactly the stamped claims, rejected as expired one second past seven days. */
  lemma Scenario(secret: string, c: Codecs, hmac: Hmac)
    requires Lawful(c)
    requires IssueToken(map["sub" := JStr("t1"), "email" := JStr("a@b.com")], secret, 1700000000000, c, hmac).Ok?
    ensures var token := IssueToken(map["sub" := JStr("t1"), "email" := JStr("a@b.com")], secret, 1700000000000, c, hmac).value;
      && VerifyJwt(token, secret, 1700000001000, c, hmac) ==
           Ok(JObj(map["sub" := JStr("t1"), "email" := JStr("a@b.com"),
                       "iat" := JNum(1700000000), "exp" := JNum(1700604800)]))
      && VerifyJwt(token, secret, 1700604801000, c, hmac) == Err(TokenExpired)
  {
    var fields := map["sub" := JStr("t1"), "email" := JStr("a@b.com")];
    VerifyIssued(fields, secret, 1700000000000, 1700000001000, c, hmac);
    VerifyIssued(fields, secret, 1700000000000, 1700604801000, c, hmac);
    ScenarioClaims();
  }

  lemma ScenarioClaims()
    ensures Seconds(1700000000000) == 1700000000
    ensures Seconds(1700000001000) == 1700000001 && Seconds(1700604801000) == 1700604801
    ensures Stamp(map["sub" := JStr("t1"), "email" := JStr("a@b.com")], 1700000000) ==
      map["sub" := JStr("t1"), "email" := JStr("a@b.com"), "iat" := JNum(1700000000), "exp" := JNum(1700604800)]
  {
  }
}
