/** The platform codecs the core calls but does not define: btoa/atob,
    JSON.stringify/JSON.parse, TextEncoder/TextDecoder and parseInt(_, 16).
    They are parameters of the model; `Lawful` states what the model assumes
    of them, and only lemmas take it as a hypothesis. */
module Codecs {
  import opened Common
  import opened JsText

  datatype Codecs = Codecs(
    /** btoa; None: it throws InvalidCharacterError. */
    btoa: string -> Option<string>,
    /** atob; None: it throws InvalidCharacterError. */
    atob: string -> Option<string>,
    /** JSON.stringify */
    stringify: Json -> string,
    /** JSON.parse; Err(message): it throws a SyntaxError with that message. */
    parse: string -> Result<Json, string>,
    /** new TextEncoder().encode */
    utf8Encode: string -> seq<Byte>,
    /** new TextDecoder().decode */
    utf8Decode: seq<Byte> -> string,
    /** parseInt(s, 16); None: NaN. */
    parseHex: string -> Option<int>
  )

  /** A character of the alphabet of section 4 of RFC 4648, or its pad character. */
  predicate IsBase64Char(c: char) {
    'A' <= c <= 'Z' || 'a' <= c <= 'z' || '0' <= c <= '9' || c == '+' || c == '/' || c == '='
  }

  /** Base64 text: alphabet characters, with '=' only in a final run of padding. */
  predicate IsBase64Text(t: string) {
    && (forall i :: 0 <= i < |t| ==> IsBase64Char(t[i]))
    && (forall i, j :: 0 <= i < j < |t| && t[i] == '=' ==> t[j] == '=')
  }

  predicate IsHexDigit(c: char) {
    '0' <= c <= '9' || 'a' <= c <= 'f' || 'A' <= c <= 'F'
  }

  function HexValue(c: char): (v: nat)
    requires IsHexDigit(c)
    ensures v < 16
  {
    if '0' <= c <= '9' then c as int - '0' as int
    else if 'a' <= c <= 'f' then c as int - 'a' as int + 10
    else c as int - 'A' as int + 10
  }

  /** The lower-case hex digit of a value below 16. */
  function HexDigit(v: nat): (c: char)
    requires v < 16
    ensures IsHexDigit(c) && HexValue(c) == v
  {
    if v < 10 then ('0' as int + v) as char else ('a' as int + v - 10) as char
  }

  /** The byte order mark, U+FEFF. */
  const Bom: char := '\U{FEFF}'

  /** The text with one leading byte order mark removed, as TextDecoder yields it. */
  function WithoutBom(s: string): string {
    if |s| > 0 && s[0] == Bom then s[1..] else s
  }

  /** What the model assumes of the platform codecs:
      btoa is base64 of section 4 of RFC 4648 on Latin-1 strings and throws otherwise;
      atob inverts it, also with the padding removed (the forgiving-base64 decoding
      of the HTML standard), and yields Latin-1 text; JSON.parse inverts
      JSON.stringify; TextDecoder inverts TextEncoder except that, its ignoreBOM option
      being false, it drops one leading U+FEFF; only the empty string encodes to no
      bytes; parseInt reads two hex digits. */
  ghost predicate Lawful(c: Codecs) {
    && (forall s :: c.btoa(s).Some? <==> Latin1(s))
    && (forall s :: c.btoa(s).Some? ==> IsBase64Text(c.btoa(s).value))
    && (forall s :: c.btoa(s).Some? ==> c.atob(c.btoa(s).value) == Some(s))
    && (forall s :: c.btoa(s).Some? ==> c.atob(StripTrailing(c.btoa(s).value, '=')) == Some(s))
    && (forall t :: c.atob(t).Some? ==> Latin1(c.atob(t).value))
    && (forall j :: c.parse(c.stringify(j)) == Ok(j))
    && (forall s :: c.utf8Decode(c.utf8Encode(s)) == WithoutBom(s))
    && (forall s :: |c.utf8Encode(s)| == 0 <==> s == "")
    && (forall s :: |s| == 2 && IsHexDigit(s[0]) && IsHexDigit(s[1]) ==>
          c.parseHex(s) == Some(16 * HexValue(s[0]) + HexValue(s[1])))
  }

  /** Base64 text loses every '=' once its trailing padding is stripped. */
  lemma {:induction false} StrippedBase64HasNoPad(t: string)
    requires IsBase64Text(t)
    ensures '=' !in StripTrailing(t, '=')
  {
    var r := StripTrailing(t, '=');
    forall i | 0 <= i < |r| ensures r[i] != '=' {
      if i < |r| - 1 {
        assert r[|r| - 1] == t[|r| - 1];
      }
    }
  }
}
