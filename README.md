# aitrader core in Dafny

This project models the logic of the aitrader crypto-trading SaaS that runs on the server side, and proves properties of that model. The pieces are:

- **Session tokens** (`src/lib/auth_web.js`).
  - Tokens are compact JWS (section 7.1 of RFC 7515) signed with HS256 (section 3.2 of RFC 7518).
  - `iat`/`exp` claims follow sections 4.1.6 and 4.1.4 of RFC 7519.
  - Header and payload are plain `btoa` text with the padding stripped. Only the signature is base64url (section 5 of RFC 4648).
- **Encrypted-blob framing** for stored exchange API keys, both over AES-GCM (NIST SP 800-38D):
  - web vault (`src/lib/crypto_web.js`): `iv(12) ++ ciphertext-with-tag`;
  - Node vault (`src/lib/crypto.js`): `iv(16) ++ ciphertext ++ tag(16)`.
  - The web vault also has its own base16 (section 8 of RFC 4648) and base64 (section 4 of RFC 4648) converters.
- **The web worker** (`src/index_web.js`):
  - the bearer-token gate of its protected routes;
  - the per-user credential and settings tables, with upsert and default-on-first-read;
  - the portfolio route's missing-credential check;
  - the scheduled batch, which gives each user its own try/catch.
- **The hand-written router** of the two standalone workers (`src/index_complete.js`, `src/index_simple.js`):
  - an append-only route table;
  - an OPTIONS preflight short-circuit;
  - first-match dispatch with an exact, `*` or prefix-`*` path rule;
  - 500 on a handler exception, and 404 otherwise.
- **The CORS header builder** (`src/lib/cors.js`), for the CORS protocol of section 3.2 of the WHATWG Fetch Standard.

## Files

| file | module | what it holds |
|---|---|---|
| `common.dfy` | `Common` | `Option`, `Result`, `Byte`, the `Json` values `JSON.parse` yields, `Request`, `Response` |
| `jstext.dfy` | `JsText` | the JavaScript string and buffer operations the core uses: `split`, `join`, `replace`, `substring`, TypedArray `slice`, binary strings |
| `codecs.dfy` | `Codecs` | the platform codecs (`btoa`/`atob`, JSON, UTF-8, `parseInt`) as function parameters, and `Lawful`, the laws assumed of them |
| `auth_web.dfy` | `AuthWeb` | `generateJwt`, `verifyJwt`, `createHmacSignature`, `arrayBufferToBase64Url` |
| `crypto_web.dfy` | `CryptoWeb` | web-vault `encryptData`/`decryptData` and the three conversion loops |
| `crypto_node.dfy` | `CryptoNode` | Node-vault `encryptData`/`decryptData` |
| `cors.dfy` | `Cors` | `handleCors` of the shared library |
| `routing.dfy` | `Routing` | `createRouter` (class `Router`), `corsHeaders`, the routers' `handleCors`, and the dispatch specification |
| `route_tables.dfy` | `RouteTables` | the route tables the two standalone workers register |
| `worker.dfy` | `Worker` | `authenticate`, the credential, portfolio, settings and recent-trades routes over class `TenantStore`, and `scheduled` |

Platform primitives are parameters, not axioms:
- the HMAC;
- AES-GCM (`AesGcm`, `NodeCrypto`);
- the codecs (`Codecs`);
- `verifyJwt` as seen by the worker;
- the encryption and decryption the worker calls;
- per-user batch work.

Their laws are ghost predicates (`Codecs.Lawful`, `AuthWeb.KeyImport`, `CryptoWeb.Sound`, `CryptoNode.Sound`) that the lemmas take as hypotheses. `AuthWeb.KeyImport` says that HMAC key import rejects zero-length key data and accepts every other key. The clock (`nowMs`) and the random IV are inputs.

## Model

| member | source | states |
|---|---|---|
| `JsText.StripTrailing` | src/lib/auth_web.js:25-26 | `replace(/=+$/, '')` leaves a prefix of its input that does not end in the character; only that character was removed |
| `JsText.ReplaceAll` | src/lib/auth_web.js:113-114 | a global one-character replace keeps the length, maps every occurrence to the replacement and leaves every other character alone |
| `JsText.IndexOf` | src/lib/auth_web.js:44 | the index found holds the character and no earlier index does |
| `JsText.Split` | src/lib/auth_web.js:44 | `split` on one character gives at least one piece, no piece holds the separator, and joining the pieces back gives the input |
| `JsText.SplitHead` | src/index_web.js:80 | the first piece of a split is a prefix of the text, followed by the separator or the end |
| `JsText.SplitJoin` | src/lib/auth_web.js:33-44 | splitting a join of separator-free pieces gives exactly those pieces |
| `JsText.LeastIndex` | src/lib/auth_web.js:44 | the first separator of `head + sep + tail` is the one right after `head`, when `head` holds none |
| `JsText.JoinAvoids` | src/lib/auth_web.js:33 | a character in none of the pieces, and other than the separator, is not in their join |
| `JsText.RelativeIndex` | src/lib/crypto.js:49-50 | a JavaScript relative index (negative counts from the end) lands in `0..len` |
| `JsText.Slice` | src/lib/crypto.js:48-50 | `slice(start, end)` is the plain subsequence for in-range ends, and empty when the resolved end does not pass the resolved start |
| `JsText.SliceFrom` | src/lib/crypto_web.js:60 | `slice(start)` for an in-range start is the suffix from it |
| `JsText.Substring` | src/lib/crypto_web.js:96 | `substring(i, j)` is the plain subsequence for in-range ordered bounds |
| `JsText.BinaryString` | src/lib/crypto_web.js:108-111 | the binary string of bytes has one character per byte and is Latin-1, what `btoa` accepts |
| `JsText.BinaryStringOf` | src/lib/auth_web.js:107-111 | the `String.fromCharCode` loop builds exactly the binary string of the bytes |
| `JsText.CharCodes` | src/lib/crypto_web.js:122-125 | the `charCodeAt` bytes have one entry per character |
| `JsText.BinaryStringRoundTrip` | src/lib/crypto_web.js:106-127 | char codes of a binary string give its bytes back, and the binary string of a Latin-1 text's codes is that text |
| `Codecs.HexValue` | src/lib/crypto_web.js:96 | the value of a hex digit is below 16 |
| `Codecs.HexDigit` | src/lib/crypto_web.js:93-99 | the lower-case digit of a value below 16 is a hex digit with that value |
| `Codecs.StrippedBase64HasNoPad` | src/lib/auth_web.js:25-26 | base64 text with its trailing padding stripped holds no '=' at all |
| `AuthWeb.IssueToken` | src/lib/auth_web.js:12-34 | reference definition of the token generateJwt returns: header and stamped payload segments joined by '.', then the signature over them; its properties are `IssueTokenSucceeds`, `IssuedTokenParts` and `VerifyIssued` |
| `AuthWeb.SignatureMatches` | src/lib/auth_web.js:52-57 | the comparison of verifyJwt: three parts, the third equal to the signature of the first two joined by '.'; used by `VerifyJwt` and `VerifyChecksSignature` |
| `AuthWeb.Expired` | src/lib/auth_web.js:63-66 | `payload.exp && payload.exp < now`: defined and truthy, and below now; its boundary is `ExpiryBoundary` |
| `AuthWeb.Stamp` | src/lib/auth_web.js:20-22 | the stamped payload has `iat` = now and `exp` = now + 604800, overwriting any caller values, and keeps every other claim |
| `AuthWeb.JsObject.constructor` | src/lib/auth_web.js:12 | the payload object holds exactly the caller's claims |
| `AuthWeb.GenerateJwt` | src/lib/auth_web.js:12-34 | the caller's payload object is mutated to its stamped form, and the token returned is `IssueToken` of the original fields |
| `AuthWeb.CreateHmacSignature` | src/lib/auth_web.js:77-99 | the signature is the base64url HMAC of the UTF-8 data under the UTF-8 secret; `KeyRejected` when `importKey` rejects the key, `InvalidCharacter` when `btoa` throws |
| `AuthWeb.ArrayBufferToBase64Url` | src/lib/auth_web.js:106-116 | the loop and the three replaces compute `Base64Url` of the bytes |
| `AuthWeb.EncodeSegmentClean` | src/lib/auth_web.js:25-26 | a header or payload segment exists exactly when the JSON text is Latin-1, and then holds only base64 alphabet characters, with no '=' and no '.' |
| `AuthWeb.Base64UrlClean` | src/lib/auth_web.js:112-115 | the signature segment always exists and holds only `A-Z a-z 0-9 - _`, so no '+', '/', '=' or '.' |
| `AuthWeb.UrlTranslationClean` | src/lib/auth_web.js:112-115 | any base64 text, with '+' and '/' replaced and its padding stripped, holds only `A-Z a-z 0-9 - _` and no '.' |
| `AuthWeb.SignatureClean` | src/lib/auth_web.js:77-99 | a signature createHmacSignature returns holds only the base64url alphabet and no '.' |
| `AuthWeb.SignatureExists` | src/lib/auth_web.js:77-99 | createHmacSignature returns a signature exactly when the secret is not empty, and throws the key rejection for the empty one |
| `AuthWeb.IssueTokenSucceeds` | src/lib/auth_web.js:12-34 | generateJwt throws exactly when the header or the stamped payload is not Latin-1 JSON text or the secret is empty; with Latin-1 segments an empty secret throws the key rejection |
| `AuthWeb.SplitThree` | src/lib/auth_web.js:33-44 | `a.b.d` with dot-free parts splits back into `[a, b, d]` |
| `AuthWeb.IssuedTokenParts` | src/lib/auth_web.js:25-57 | a generated token splits into exactly 3 parts: the header and payload encodings, then the HMAC of exactly `part0.part1`; all three are clean |
| `AuthWeb.DecodePayload` | src/lib/auth_web.js:60-68 | the payload is returned exactly when `atob` accepts the segment, `JSON.parse` accepts the text, and the result is neither null nor expired; it is then that parsed value |
| `AuthWeb.VerifyJwt` | src/lib/auth_web.js:42-69 | it throws 'Invalid token format' exactly when the split does not give 3 parts; on success or 'Token expired' the signature matched; a returned payload is not expired |
| `AuthWeb.VerifyChecksSignature` | src/lib/auth_web.js:49-60 | for a three-part token and a non-empty secret, a third part other than the HMAC of the first two throws 'Invalid signature'; with an empty secret every such token throws the key rejection; a matching one hands the payload segment to decoding, which with `DecodePayload` fixes the success case |
| `AuthWeb.EmptySecretFailsClosed` | src/lib/auth_web.js:77-99 | with an empty secret generateJwt never returns a token and verifyJwt never returns a payload |
| `AuthWeb.VerifyIssued` | src/lib/auth_web.js:12-69 | with the same secret, a generated token verifies to the stamped payload as written (including `iat` and `exp`) until the end of its seventh day, and is 'Token expired' from the second after |
| `AuthWeb.StampedExpiry` | src/lib/auth_web.js:21-66 | a stamped payload is expired exactly when now > iat + 604800 |
| `AuthWeb.VerifyDecodes` | src/lib/auth_web.js:49-68 | once format and signature pass and the payload parses, only expiry decides the outcome |
| `AuthWeb.ExpiryBoundary` | src/lib/auth_web.js:64-66 | a payload without `exp` never expires; with a non-zero numeric `exp` it expires exactly when `exp < now`, so `exp == now` is accepted |
| `AuthWeb.VerifyIgnoresHeader` | src/lib/auth_web.js:49-60 | the header segment is never decoded: two tokens with the same payload and a valid signature each verify alike |
| `AuthWeb.Scenario` | src/lib/auth_web.js:12-69 | a token issued at 1700000000000 ms is accepted a second later with exactly the stamped claims, and expired at 1700604801000 ms |
| `AuthWeb.ScenarioClaims` | src/lib/auth_web.js:20-22 | at 1700000000000 ms the stamp adds `iat` 1700000000 and `exp` 1700604800 to {sub, email} |
| `CryptoWeb.Encrypted` | src/lib/crypto_web.js:12-46 | reference definition of web encryptData: base64 of the IV followed by the AES-GCM output, or the error thrown; its properties are `EncryptLayout` and `RoundTrip` |
| `CryptoWeb.Decrypted` | src/lib/crypto_web.js:54-86 | reference definition of web decryptData: decode, IV from bytes [0,12), ciphertext from [12,end), open, UTF-8 decode; its properties are `RoundTrip` and `DecryptPropagatesRejection` |
| `CryptoWeb.HexDecoded` | src/lib/crypto_web.js:93-99 | hex decoding yields `hex.length / 2` bytes (integer division) |
| `CryptoWeb.HexEncoded` | src/lib/crypto_web.js:93-99 | the hex text of a key has two digits per byte |
| `CryptoWeb.HexToArrayBuffer` | src/lib/crypto_web.js:93-99 | the two-step loop into the Uint8Array, dropping the write of an odd final digit, computes `HexDecoded` |
| `CryptoWeb.ArrayBufferToBase64` | src/lib/crypto_web.js:106-113 | the loop and `btoa` compute `Base64Encoded` of the bytes |
| `CryptoWeb.Base64ToArrayBuffer` | src/lib/crypto_web.js:120-127 | `atob` and the `charCodeAt` loop into the Uint8Array compute `Base64Decoded` of the text |
| `CryptoWeb.SetAt` | src/lib/crypto_web.js:41-42 | `target.set(source, offset)` overwrites exactly the positions from offset on with source and leaves the rest |
| `CryptoWeb.EncryptData` | src/lib/crypto_web.js:12-46 | given the drawn 12-byte IV, it computes `Encrypted`: `btoa` of the IV followed by the AES-GCM output, or the error that the seal rejects |
| `CryptoWeb.DecryptData` | src/lib/crypto_web.js:54-86 | it computes `Decrypted`: bytes [0,12) are the IV and [12,end) the ciphertext, and any rejection is thrown with no fallback |
| `CryptoWeb.HexDecodedDigits` | src/lib/crypto_web.js:93-99 | for even-length hex, byte k is `16 * value(hex[2k]) + value(hex[2k+1])` |
| `CryptoWeb.HexRoundTrip` | src/lib/crypto_web.js:93-99 | decoding the hex text of any key gives the key back |
| `CryptoWeb.Base64RoundTrip` | src/lib/crypto_web.js:106-127 | `arrayBufferToBase64` always succeeds and `base64ToArrayBuffer` inverts it on every byte sequence |
| `CryptoWeb.LayoutSlices` | src/lib/crypto_web.js:59-60 | the two slices of `iv ++ data` are exactly the 12-byte iv and data |
| `CryptoWeb.EncryptLayout` | src/lib/crypto_web.js:26-45 | encryptData fails only when AES-GCM rejects; its text decodes to the 12 IV bytes followed by the cipher output, 12 bytes longer than that output |
| `CryptoWeb.RoundTrip` | src/lib/crypto_web.js:12-86 | `decryptData(encryptData(d, k), k) == d` for text not starting with U+FEFF, and `d` without its first character for text that does (TextDecoder drops a leading byte order mark); both sides derive the key by the same hex decoding |
| `CryptoWeb.DecryptPropagatesRejection` | src/lib/crypto_web.js:75-85 | a rejected AES-GCM decryption is the error of decryptData, with no plaintext |
| `CryptoNode.Unframe` | src/lib/crypto.js:45-50 | the three Buffer slices decryptData takes: IV [0,16), tag from length - 16, text between, with relative indices; its properties are `UnframeReassembles`, `ShortBuffer` and `UnframeFramed` |
| `CryptoNode.Encrypted` | src/lib/crypto.js:15-35 | reference definition of Node encryptData: the cipher's ciphertext read back from base64, framed as `iv ++ ciphertext ++ tag` and stored as base64; its properties are `EncryptLayout` and `RoundTrip` |
| `CryptoNode.Decrypted` | src/lib/crypto.js:43-61 | reference definition of Node decryptData: base64 decode, `Unframe`, then authenticated decryption; its property is `RoundTrip` |
| `CryptoNode.UnframeReassembles` | src/lib/crypto.js:48-50 | for a buffer of 32 bytes or more, the slices for the IV, text and tag concatenate back to the buffer; IV and tag are 16 bytes |
| `CryptoNode.ShortBuffer` | src/lib/crypto.js:48-50 | below 32 bytes the ciphertext slice is empty; below 16 bytes the negative relative start makes the tag slice the whole buffer (up to 8 bytes) or its last 16 - n bytes |
| `CryptoNode.UnframeFramed` | src/lib/crypto.js:30-50 | decoding a blob written as `iv ++ ciphertext ++ tag` recovers exactly that IV, ciphertext and tag |
| `CryptoNode.EncryptLayout` | src/lib/crypto.js:15-35 | with a 16-byte IV, encryptData throws only when the cipher does, and the stored text decodes to `iv ++ ciphertext ++ tag`, 32 bytes longer than the ciphertext |
| `CryptoNode.RoundTrip` | src/lib/crypto.js:15-61 | `decryptData(encryptData(d, k), k) == d` under the AES-256-GCM and Buffer base64 round trips |
| `CryptoNode.WebReadsNodeBlobWrongly` | src/lib/crypto.js:17-48 | the web layout applied to a Node blob takes 12 of the 16 IV bytes as its IV and the other 4 as ciphertext, so the formats are not interchangeable |
| `Cors.AllowedHeadersText` | src/lib/cors.js:15-20 | the allowed headers join to "Content-Type, Authorization, X-Requested-With, Accept", in that order |
| `Cors.HandleCors` | src/lib/cors.js:10-35 | exactly five headers: Allow-Origin is the Origin header when present and non-empty, else '*'; Allow-Headers is the list above; Methods, Credentials 'true' and Max-Age '86400' are constant |
| `Cors.OnlyOriginMatters` | src/lib/cors.js:12-34 | two requests with the same effective origin get the same headers, whatever their method, path or other headers |
| `Cors.OriginEchoed` | src/lib/cors.js:12-24 | a non-empty Origin is echoed exactly, and an absent one gives '*' |
| `Routing.RouterCorsHeaders` | src/index_complete.js:75-80 | the routers' `corsHeaders` has exactly four keys: origin '*', the five methods, "Content-Type, Authorization" and max-age 86400 |
| `Routing.HandleCors` | src/index_complete.js:83-88 | the routers' preflight answer is 204 with no body and `corsHeaders` |
| `Routing.ServerError` | src/index_complete.js:51-58 | a handler exception gives 500 with the JSON `{error: message}`, Content-Type application/json and every CORS header |
| `Routing.NotFound` | src/index_complete.js:63-67 | no match gives 404 'Not Found' with `corsHeaders` |
| `Routing.PathMatches` | src/index_complete.js:47-48 | the path rule: equal, a '*' pattern, or a pattern ending in '*' whose prefix starts the pathname; `ExactMatching` states it without wildcards |
| `Routing.Matches` | src/index_complete.js:46-48 | a route serves a request when its method is the request's or '*', and its path rule holds |
| `Routing.Dispatch` | src/index_complete.js:35-68 | reference definition of handle: preflight for OPTIONS, else the first match's outcome (500 on a throw), else 404; `Router.Handle` is proved equal to it, and `PreflightFirst`, `LaterRoutesShadowed` and `ExactDispatch` are about it |
| `Routing.FirstMatchFrom` | src/index_complete.js:45-48 | the index found from a start is a matching route with no matching route between the start and it; None exactly when none matches |
| `Routing.FirstMatch` | src/index_simple.js:37-40 | the index found is a matching route with none before it; None exactly when no route matches |
| `Routing.Router.constructor` | src/index_complete.js:7-8 | a new router has no routes |
| `Routing.Router.Register` | src/index_complete.js:11-34 | registering appends `{method, path, handler}` at the end and returns the router itself |
| `Routing.Router.Get` | src/index_simple.js:11-14 | `get` appends a GET route and returns the router |
| `Routing.Router.Post` | src/index_simple.js:15-18 | `post` appends a POST route and returns the router |
| `Routing.Router.Put` | src/index_complete.js:19-22 | `put` appends a PUT route and returns the router |
| `Routing.Router.Delete` | src/index_complete.js:23-26 | `delete` appends a DELETE route and returns the router |
| `Routing.Router.Options` | src/index_simple.js:19-22 | `options` appends an OPTIONS route and returns the router |
| `Routing.Router.All` | src/index_simple.js:23-26 | `all` appends a '*' route and returns the router |
| `Routing.Router.Handle` | src/index_complete.js:35-68 | the loop with early return answers as `Dispatch`: OPTIONS first, then the first matching route in registration order, 500 if it throws, 404 if none matches |
| `Routing.PreflightFirst` | src/index_simple.js:32-34 | OPTIONS always gets the preflight answer, whatever routes are registered after, so `options()` routes are never dispatched |
| `Routing.LaterRoutesShadowed` | src/index_simple.js:37-42 | first match wins: appending routes never changes the match of a request that already matched |
| `Routing.ExactMatching` | src/index_complete.js:46-48 | with no '*' method, no '*' path and no path ending in '*', a route matches exactly its own method and path |
| `Routing.ExactDispatch` | src/index_complete.js:40-67 | in such a table, a request other than OPTIONS reaches a handler exactly when its method and path pair was registered, and is 404 otherwise |
| `RouteTables.RegisterComplete` | src/index_complete.js:94-403 | the complete worker's registrations build its eleven-route table |
| `RouteTables.RegisterSimple` | src/index_simple.js:86-155 | the simple worker's registrations build its three-route table |
| `RouteTables.SettingsSplitByMethod` | src/index_complete.js:275-304 | GET and POST `/api/trading/settings` reach different handlers |
| `RouteTables.CompleteUnregisteredIsNotFound` | src/index_complete.js:94-403 | every method and path pair the complete worker did not register gets 404, since no route uses '*' |
| `RouteTables.SimpleRoutesExactly` | src/index_simple.js:86-155 | the simple worker routes exactly GET /api/health, POST /api/auth/google and GET /api/market/data |
| `RouteTables.SimpleHealthPostNotFound` | src/index_simple.js:86 | POST /api/health gets 404 from the simple worker |
| `Worker.JsonResponse` | src/index_web.js:71-77 | the worker's JSON answers carry the status, the JSON body, Content-Type application/json and every header handleCors gives |
| `Worker.BearerSplit` | src/index_web.js:80 | a bearer header splits on ' ' into "Bearer" and at least one more piece |
| `Worker.BearerToken` | src/index_web.js:80 | the token is the text after "Bearer " up to the next space or the end |
| `Worker.WorkerRequest.constructor` | src/index_web.js:68-69 | a request starts with no `user` |
| `Worker.Authenticate` | src/index_web.js:68-94 | authenticate returns the 401 of `Authenticated` with `request.user` untouched, or null with `request.user` set to the verified payload |
| `Worker.Authenticated` | src/index_web.js:68-94 | the decision of authenticate: 401 'Unauthorized' without a bearer header, else the verifier's payload or 401 'Invalid token'; its properties are `UnauthorizedWithoutBearer`, `BearerDecides` and `IssuedTokenAdmitted` |
| `Worker.UnauthorizedWithoutBearer` | src/index_web.js:69-78 | a missing, empty or non-"Bearer " header gives 401 'Unauthorized' without consulting the verifier |
| `Worker.BearerDecides` | src/index_web.js:80-93 | otherwise verify success admits its payload and verify failure gives 401 'Invalid token' |
| `Worker.BearerTokenOf` | src/index_web.js:80 | "Bearer " + a token without spaces hands that token to the verifier |
| `Worker.EmptySecretDeniesAll` | src/index_web.js:68-94 | with an empty JWT secret authenticate answers every request with a 401 |
| `Worker.IssuedTokenAdmitted` | src/index_web.js:80-84 | a token from generateJwt in the header admits its stamped payload until it expires, then gives 401 'Invalid token' |
| `Worker.IssuedTokenHasNoSpace` | src/lib/auth_web.js:25-33 | a generated token holds no space |
| `Worker.PartsHaveNoSpace` | src/lib/auth_web.js:33 | clean segments joined by '.' hold no space |
| `Worker.SandboxFlag` | src/index_web.js:119-122 | `isSandbox ? 1 : 0` is 1 exactly for a defined truthy value, else 0 |
| `Worker.SaveCredentials` | src/index_web.js:101-139 | success (200) exactly when the body reads, both encryptions succeed and `sub` is bindable; then the row of (user, 'coinbase') is inserted or overwritten and all others kept; otherwise 400 with the table unchanged |
| `Worker.ReadSettings` | src/index_web.js:214-270 | a user without a row gets the defaults stored first; the answer is built from the user's row either way; an undefined `sub` gives 500 |
| `Worker.WriteSettings` | src/index_web.js:287-325 | success exactly when the body reads, `sub` is bindable, all five fields are defined and the four bound as they are are bindable (not an object or array); then the user's row is upserted and the others kept; otherwise 400 with the table unchanged |
| `Worker.UnbindableSettingRejected` | src/index_web.js:291-325 | a settings field holding an object or an array makes the bind throw: 400 with the bind error and nothing stored |
| `Worker.PortfolioResponse` | src/index_web.js:147-206 | the portfolio route after admission: 500 for an undefined `sub`, 400 without a stored row, 500 with the error if either decryption fails, else 200 with the portfolio; its properties are `NoCredentialsBeforeDecrypt` and `DecryptFailureSurfaces` |
| `Worker.TenantStore.constructor` | src/index_web.js:109-123 | a new store has empty tables |
| `Worker.TenantStore.PostCredentials` | src/index_web.js:97-140 | the auth response is returned unchanged with nothing stored; otherwise the credentials table becomes what `SaveCredentials` gives; settings are untouched |
| `Worker.TenantStore.GetPortfolio` | src/index_web.js:143-167 | the auth response is returned unchanged; otherwise the answer is `PortfolioResponse`; no table changes |
| `Worker.TenantStore.GetSettings` | src/index_web.js:210-280 | the auth response is returned unchanged with nothing stored; otherwise settings and answer are `ReadSettings`; credentials are untouched |
| `Worker.TenantStore.PostSettings` | src/index_web.js:283-326 | the auth response is returned unchanged with nothing stored; otherwise settings and answer are `WriteSettings`; credentials are untouched |
| `Worker.TenantStore.GetRecentTrades` | src/index_web.js:361-363 | the auth response is returned unchanged, and only an admitted request reaches the rest of the route |
| `Worker.CredentialsResubmitted` | src/index_web.js:109-123 | submitting credentials twice for one user, each with its own encryption, leaves the table holding only the second submission |
| `Worker.NoCredentialsBeforeDecrypt` | src/index_web.js:149-163 | without a stored row the portfolio route answers 400 'No Coinbase API credentials found' before any decryption: the answer does not depend on the decryption |
| `Worker.DecryptFailureSurfaces` | src/index_web.js:166-205 | with a row, a failed decryption of the key is a 500 with its message, and 200 comes only when both key and secret decrypt |
| `Worker.FirstReadDefaults` | src/index_web.js:222-256 | a first read stores the defaults and returns 20, 20, 'Optimal', 'Medium' and [BTC, ETH, SOL, ADA, DOT] |
| `Worker.ReadSettingsStable` | src/index_web.js:216-270 | reading twice changes nothing more and gives the same answer again |
| `Worker.WriteThenRead` | src/index_web.js:259-309 | after a successful settings POST, reading returns exactly the posted values, the coin list included |
| `Worker.Attempt` | src/index_web.js:451-465 | one iteration reports its own user, and fails exactly when that user's work throws, with that error |
| `Worker.Scheduled` | src/index_web.js:431-467 | with no result or an empty list there is no per-user work; otherwise every user is visited in result order, one outcome each, whatever earlier users' work did |

## Left out

- Cryptographic internals are function parameters with stated laws, not implementations: HMAC-SHA-256, the AES-GCM seal and open of the web vault, and Node's `createCipheriv`/`createDecipheriv`. Node's authenticated decryption, including `setAuthTag` and `final` throwing on a bad tag, is one opaque call. The HMAC's only law is `AuthWeb.KeyImport`: nothing is assumed about the MAC bytes themselves, so no lemma relies on HMAC's resistance to forgery.
- Random sources (`crypto.getRandomValues`, `randomBytes`) and the clock (`Date.now()`) are inputs. The IV lengths are preconditions of the lemmas.
- Codecs (`btoa`, `atob`, JSON, `TextEncoder`/`TextDecoder`, `parseInt`, Node's `Buffer` hex and base64) are function parameters. Only the laws in `Codecs.Lawful` and `CryptoNode.Sound` are assumed.
- JSON numbers are integers. They are unbounded, whereas JavaScript numbers are doubles: an integer beyond 2^53 does not survive `JSON.stringify`/`JSON.parse` in the source, yet the parse law in `Codecs.Lawful` is stated for every value. The default percentages `20.0` are `JNum(20)`, and `exp` compared with `<` is modelled for numbers and booleans only; other values never count as expired.
- AuthWeb.VerifyJwt: `exp` given as a numeric string, or as another value JavaScript coerces to a number, is not modelled as expiring.
- `src/lib/auth.js` is not part of this model. It wraps the `jsonwebtoken` library.
- The itty-router dispatch of `src/index_web.js` (lines 7-16, 416-428) is library code and is not part of this model. Its routes are modelled as separate methods.
- SQL text and the D1 database bindings: the tables are maps in `Worker.TenantStore`.
  - Row ids, timestamps and `last_used` are not stored.
  - D1's own failures are not modelled.
  - Storing booleans as 0/1 and column affinities are not modelled.
  - Binding an undefined value, an object or an array throws the store's `bindError` message.
- Worker.WriteSettings: a JSON array of byte values, which D1 could bind as a blob, is treated as unbindable (400), because the model has no blob columns.
- Worker.Subject: a `sub` claim that is not a string is treated like an undefined one.
- The request body is given already read and destructured, as `Result<Fields, string>`. `Err` stands for `request.json()` or the destructuring throwing, e.g. on malformed JSON or a `null` body.
- Worker.TenantStore.GetPortfolio: the portfolio snapshot insert is not modelled. It relies on `parseFloat` of mock text. The mock portfolio is the `portfolio` parameter.
- Worker.TenantStore.GetRecentTrades: the trade-history query and its formatting (`toLocaleString`, `toFixed`) are not modelled. The answer after the gate is the `rest` parameter.
- Mock-data handlers (Google sign-in, market data, news, trading start and stop, health) are not modelled. Only their registration in the route tables is.
- The `scheduled` per-user step is a stub in the source. It is the `work` parameter, which may fail. `console.log` output is not modelled.
- Strings are Dafny strings: sequences of Unicode scalar values, not of UTF-16 code units. A character outside the Basic Multilingual Plane has length 1 here and 2 in JavaScript. A lone surrogate cannot be represented, and `TextEncoder` would turn it into U+FFFD. So the UTF-8 law in `Codecs.Lawful` and the two `RoundTrip` lemmas (`CryptoWeb.RoundTrip`, `CryptoNode.RoundTrip`) are stated only for strings Dafny can represent. The web law also takes `TextDecoder`'s default of dropping one leading U+FEFF into account (`Codecs.WithoutBom`). Node's `toString('utf8')` keeps it.
- Routing.Outcome: every thrown value is taken to carry a string `message`. In the source, a thrown value without `message` (a string, say) gives the 500 body `{}`. A thrown `null` makes the catch block itself throw a TypeError instead of answering 500.
- `async`/`await` is sequential here and is modelled as ordinary sequential code.
- URL parsing is out: a request carries its pathname already. Header names are the lower-case keys the `Headers` class normalises them to.
- The React pages under `src/app/`, `tailwind.config.js` and `next.config.js` are not part of this model.
