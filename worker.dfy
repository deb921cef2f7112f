/** The Cloudflare worker of the web build: the bearer-token gate of its protected
    routes, the per-user tables behind them, and the scheduled batch over users. */
module Worker {
  import opened Common
  import opened JsText
  import opened Codecs
  import Cors
  import AuthWeb

  /** verifyJwt with the worker's secret and clock. */
  type Verifier = string -> Result<Json, AuthWeb.JwtError>

  /** A JSON response carrying `Content-Type: application/json` and the CORS headers of the request. */
  function JsonResponse(status: int, body: Json, request: Request): (r: Response)
    ensures r.status == status && r.body == JsonBody(body)
    ensures r.headers.Keys == Cors.HandleCors(request).headers.Keys + {"Content-Type"}
    ensures r.headers["Content-Type"] == "application/json"
    ensures forall k :: k in Cors.HandleCors(request).headers ==> r.headers[k] == Cors.HandleCors(request).headers[k]
  {
    Response(status, map["Content-Type" := "application/json"] + Cors.HandleCors(request).headers, JsonBody(body))
  }

  /** `{ success: true }` */
  function Success(): Json {
    JObj(map["success" := JBool(true)])
  }

  // ---------------------------------------------------------------- authenticate

  /** The Authorization header is present, non-empty and starts with "Bearer ". */
  predicate HasBearer(request: Request) {
    "authorization" in request.headers && "Bearer " <= request.headers["authorization"]
  }

  /** Splitting a bearer header on ' ' gives "Bearer" and at least one more piece. */
  lemma BearerSplit(header: string)
    requires "Bearer " <= header
    ensures |Split(header, ' ')| >= 2 && Split(header, ' ')[0] == "Bearer"
    ensures Split(header, ' ')[1] == Split(header[7..], ' ')[0]
  {
    assert header == "Bearer" + [' '] + header[7..];
    LeastIndex(header, ' ', "Bearer", header[7..]);
    assert header[..6] == "Bearer";
  }

  /** `authHeader.split(' ')[1]`: the text after "Bearer " up to the next space. */
  function BearerToken(header: string): (token: string)
    requires "Bearer " <= header
    ensures ' ' !in token
    ensures 7 + |token| <= |header| && header[7..7 + |token|] == token
    ensures 7 + |token| == |header| || header[7 + |token|] == ' '
  {
    BearerSplit(header);
    SplitHead(header[7..], ' ');
    Split(header, ' ')[1]
  }

  /** What authenticate decides: go on with the verified payload, or answer with a 401. */
  datatype Gate = Admit(payload: Json) | Deny(response: Response)

  function Authenticated(request: Request, verify: Verifier): Gate {
    if !HasBearer(request) then Deny(JsonResponse(401, ErrorJson("Unauthorized"), request))
    else
      match verify(BearerToken(request.headers["authorization"]))
      case Ok(payload) => Admit(payload)
      case Err(_) => Deny(JsonResponse(401, ErrorJson("Invalid token"), request))
  }

  /** A request whose `user` property authenticate sets. */
  class WorkerRequest {
    const request: Request
    var user: Option<Json>

    constructor (request: Request)
      ensures this.request == request && user == None
    {
      this.request := request;
      user := None;
    }
  }

  /** authenticate: None lets the route go on with `req.user` set; Some is the 401 to return. */
  method Authenticate(req: WorkerRequest, verify: Verifier) returns (denial: Option<Response>)
    modifies req
    ensures match Authenticated(req.request, verify)
      case Deny(response) => denial == Some(response) && req.user == old(req.user)
      case Admit(payload) => denial == None && req.user == Some(payload)
  {
    var headers := req.request.headers;
    if "authorization" !in headers || !("Bearer " <= headers["authorization"]) {
      return Some(JsonResponse(401, ErrorJson("Unauthorized"), req.request));
    }
    var token := BearerToken(headers["authorization"]);
    var verified := verify(token);
    if verified.Err? {
      return Some(JsonResponse(401, ErrorJson("Invalid token"), req.request));
    }
    req.user := Some(verified.value);
    denial := None;
  }

  /** Without a "Bearer " header the answer is 401 'Unauthorized', whatever the verifier. */
  lemma UnauthorizedWithoutBearer(request: Request, verify: Verifier, other: Verifier)
    requires !HasBearer(request)
    ensures Authenticated(request, verify) == Deny(JsonResponse(401, ErrorJson("Unauthorized"), request))
    ensures Authenticated(request, verify) == Authenticated(request, other)
  {
  }

  /** With a bearer header, the token alone decides: its payload on success, else 401 'Invalid token'. */
  lemma BearerDecides(request: Request, verify: Verifier)
    requires HasBearer(request)
    ensures var token := BearerToken(request.headers["authorization"]);
      && (verify(token).Ok? ==> Authenticated(request, verify) == Admit(verify(token).value))
      && (verify(token).Err? ==> Authenticated(request, verify) == Deny(JsonResponse(401, ErrorJson("Invalid token"), request)))
  {
  }

  /** A token without spaces, sent as "Bearer " + token, is what reaches the verifier. */
  lemma BearerTokenOf(token: string)
    requires ' ' !in token
    ensures BearerToken("Bearer " + token) == token
  {
    var header := "Bearer " + token;
    assert header[7..] == token;
    BearerSplit(header);
  }

  /** A token generateJwt issued, sent as a bearer header, admits its stamped payload
      until it expires, and is refused with 401 'Invalid token' once it has. */
  lemma IssuedTokenAdmitted(fields: map<string, Json>, secret: string, issuedMs: int, nowMs: int,
                            c: Codecs, hmac: AuthWeb.Hmac, request: Request)
    requires Lawful(c) && issuedMs >= 0
    requires AuthWeb.IssueToken(fields, secret, issuedMs, c, hmac).Ok?
    requires "authorization" in request.headers
    requires request.headers["authorization"] == "Bearer " + AuthWeb.IssueToken(fields, secret, issuedMs, c, hmac).value
    ensures var verify := (t: string) => AuthWeb.VerifyJwt(t, secret, nowMs, c, hmac);
      Authenticated(request, verify) ==
        if AuthWeb.Seconds(nowMs) > AuthWeb.Seconds(issuedMs) + AuthWeb.Lifetime
        then Deny(JsonResponse(401, ErrorJson("Invalid token"), request))
        else Admit(JObj(AuthWeb.Stamp(fields, AuthWeb.Seconds(issuedMs))))
  {
    var token := AuthWeb.IssueToken(fields, secret, issuedMs, c, hmac).value;
    IssuedTokenHasNoSpace(fields, secret, issuedMs, c, hmac);
    BearerTokenOf(token);
    AuthWeb.VerifyIssued(fields, secret, issuedMs, nowMs, c, hmac);
  }

  /** With an empty JWT secret (an unset one encodes the same) authenticate refuses
      every request with a 401: HMAC key import fails, so no token verifies. */
  lemma EmptySecretDeniesAll(request: Request, nowMs: int, c: Codecs, hmac: AuthWeb.Hmac)
    requires Lawful(c) && AuthWeb.KeyImport(hmac)
    ensures Authenticated(request, (t: string) => AuthWeb.VerifyJwt(t, "", nowMs, c, hmac)).Deny?
  {
    if HasBearer(request) {
      AuthWeb.EmptySecretFailsClosed(map[], BearerToken(request.headers["authorization"]), nowMs, c, hmac);
    }
  }

  /** Issued tokens are base64 and base64url segments joined by '.', so hold no space. */
  lemma IssuedTokenHasNoSpace(fields: map<string, Json>, secret: string, nowMs: int, c: Codecs, hmac: AuthWeb.Hmac)
    requires Lawful(c)
    requires AuthWeb.IssueToken(fields, secret, nowMs, c, hmac).Ok?
    ensures ' ' !in AuthWeb.IssueToken(fields, secret, nowMs, c, hmac).value
  {
    var token := AuthWeb.IssueToken(fields, secret, nowMs, c, hmac).value;
    AuthWeb.IssuedTokenParts(fields, secret, nowMs, c, hmac);
    PartsHaveNoSpace(Split(token, '.'));
  }

  /** Three segments of a generated token, joined by '.', hold no space. */
  lemma PartsHaveNoSpace(parts: seq<string>)
    requires |parts| == 3
    requires AuthWeb.IsPlainSegment(parts[0]) && AuthWeb.IsPlainSegment(parts[1]) && AuthWeb.IsUrlSegment(parts[2])
    ensures ' ' !in Join(parts, '.')
  {
    forall k | 0 <= k < |parts| ensures ' ' !in parts[k] {
      forall i | 0 <= i < |parts[k]| ensures parts[k][i] != ' ' {
        assert IsBase64Char(parts[k][i]) || parts[k][i] == '-' || parts[k][i] == '_';
      }
    }
    JoinAvoids(parts, '.', ' ');
  }

  // ---------------------------------------------------------------- tables

  /** The only provider credentials are stored for. */
  const Provider := "coinbase"

  /** A row of api_credentials: the two encrypted texts and the sandbox flag as 1 or 0. */
  datatype CredentialRow = CredentialRow(encryptedKey: string, encryptedSecret: string, isSandbox: int)

  /** A row of trading_settings; the coin list is stored as JSON text. */
  datatype SettingsRow = SettingsRow(
    maxTransactionPercent: Json,
    maxPositionPercent: Json,
    tradingFrequency: Json,
    riskLevel: Json,
    activeCryptocurrencies: string)

  /** The properties of a parsed request body, as destructuring sees them. */
  type Fields = map<string, Json>

  function Field(f: Fields, key: string): Option<Json> {
    if key in f then Some(f[key]) else None
  }

  /** `request.user.sub` as a database key; None when it is undefined or not a string. */
  function Subject(payload: Json): Option<string> {
    match Property(payload, "sub")
    case Some(JStr(s)) => Some(s)
    case _ => None
  }

  /** `isSandbox ? 1 : 0` */
  function SandboxFlag(v: Option<Json>): (flag: int)
    ensures flag == 1 <==> v.Some? && Truthy(v.value)
    ensures flag == 0 || flag == 1
  {
    if v.Some? && Truthy(v.value) then 1 else 0
  }

  /** POST /api/coinbase/credentials after admission: read the body, encrypt key and
      secret, then insert or overwrite the row of (user, 'coinbase'); any throw gives 400. */
  function SaveCredentials(credentials: map<(string, string), CredentialRow>, payload: Json, request: Request,
                           body: Result<Fields, string>, encrypt: Option<Json> -> Result<string, string>,
                           bindError: string)
    : (r: (map<(string, string), CredentialRow>, Response))
    ensures r.1.status == 200 || r.1.status == 400
    ensures r.1.status == 400 ==> r.0 == credentials
    ensures r.1.status == 200 <==>
      && body.Ok?
      && encrypt(Field(body.value, "apiKey")).Ok?
      && encrypt(Field(body.value, "apiSecret")).Ok?
      && Subject(payload).Some?
    ensures r.1.status == 200 ==>
      && r.1 == JsonResponse(200, Success(), request)
      && r.0.Keys == credentials.Keys + {(Subject(payload).value, Provider)}
      && r.0[(Subject(payload).value, Provider)] == CredentialRow(
           encrypt(Field(body.value, "apiKey")).value,
           encrypt(Field(body.value, "apiSecret")).value,
           SandboxFlag(Field(body.value, "isSandbox")))
      && forall k :: k in credentials && k != (Subject(payload).value, Provider) ==> r.0[k] == credentials[k]
  {
    match body
    case Err(message) => (credentials, JsonResponse(400, ErrorJson(message), request))
    case Ok(f) =>
      match encrypt(Field(f, "apiKey"))
      case Err(message) => (credentials, JsonResponse(400, ErrorJson(message), request))
      case Ok(encryptedKey) =>
        match encrypt(Field(f, "apiSecret"))
        case Err(message) => (credentials, JsonResponse(400, ErrorJson(message), request))
        case Ok(encryptedSecret) =>
          match Subject(payload)
          case None => (credentials, JsonResponse(400, ErrorJson(bindError), request))
          case Some(user) =>
            var row := CredentialRow(encryptedKey, encryptedSecret, SandboxFlag(Field(f, "isSandbox")));
            (credentials[(user, Provider) := row], JsonResponse(200, Success(), request))
  }

  /** GET /api/portfolio after admission, up to the decryption of the stored credentials;
      `portfolio` is the body the route answers with once both decrypt. */
  function PortfolioResponse(credentials: map<(string, string), CredentialRow>, payload: Json, request: Request,
                             decrypt: string -> Result<string, string>, portfolio: Json, bindError: string)
    : Response
  {
    match Subject(payload)
    case None => JsonResponse(500, ErrorJson(bindError), request)
    case Some(user) =>
      if (user, Provider) !in credentials then
        JsonResponse(400, ErrorJson("No Coinbase API credentials found"), request)
      else
        var row := credentials[(user, Provider)];
        match decrypt(row.encryptedKey)
        case Err(message) => JsonResponse(500, ErrorJson(message), request)
        case Ok(_) =>
          match decrypt(row.encryptedSecret)
          case Err(message) => JsonResponse(500, ErrorJson(message), request)
          case Ok(_) => JsonResponse(200, portfolio, request)
  }

  /** The coins a new user's settings trade. */
  const DefaultCryptocurrencies: seq<Json> := [JStr("BTC"), JStr("ETH"), JStr("SOL"), JStr("ADA"), JStr("DOT")]

  /** The settings stored for a user on their first read. */
  function DefaultSettings(c: Codecs): SettingsRow {
    SettingsRow(JNum(20), JNum(20), JStr("Optimal"), JStr("Medium"), c.stringify(JArr(DefaultCryptocurrencies)))
  }

  /** The settings object returned to the client, the coin list parsed back from its text. */
  function SettingsJson(row: SettingsRow, coins: Json): Json {
    JObj(map[
      "max_transaction_percent" := row.maxTransactionPercent,
      "max_position_percent" := row.maxPositionPercent,
      "trading_frequency" := row.tradingFrequency,
      "risk_level" := row.riskLevel,
      "active_cryptocurrencies" := coins])
  }

  /** The answer for a settings row: 200 with its fields, or 500 if JSON.parse throws. */
  function SettingsReply(row: SettingsRow, request: Request, c: Codecs): Response {
    match c.parse(row.activeCryptocurrencies)
    case Err(message) => JsonResponse(500, ErrorJson(message), request)
    case Ok(coins) => JsonResponse(200, SettingsJson(row, coins), request)
  }

  /** GET /api/trading/settings after admission: a user without a row gets the default
      row stored first; the answer is built from the row either way. */
  function ReadSettings(settings: map<string, SettingsRow>, payload: Json, request: Request, c: Codecs, bindError: string)
    : (r: (map<string, SettingsRow>, Response))
    ensures Subject(payload).None? ==> r == (settings, JsonResponse(500, ErrorJson(bindError), request))
    ensures Subject(payload).Some? ==>
      var user := Subject(payload).value;
      && user in r.0
      && r.0 == (if user in settings then settings else settings[user := DefaultSettings(c)])
      && r.1 == SettingsReply(r.0[user], request, c)
  {
    match Subject(payload)
    case None => (settings, JsonResponse(500, ErrorJson(bindError), request))
    case Some(user) =>
      if user !in settings then
        var row := DefaultSettings(c);
        (settings[user := row], SettingsReply(row, request, c))
      else
        (settings, SettingsReply(settings[user], request, c))
  }

  /** POST /api/trading/settings after admission: insert or overwrite the user's row;
      an undefined subject, or a field that is undefined or not bindable, makes the
      bind throw and gives 400 with nothing stored. */
  function WriteSettings(settings: map<string, SettingsRow>, payload: Json, request: Request,
                         body: Result<Fields, string>, c: Codecs, bindError: string)
    : (r: (map<string, SettingsRow>, Response))
    ensures r.1.status == 200 || r.1.status == 400
    ensures r.1.status == 400 ==> r.0 == settings
    ensures r.1.status == 200 <==> body.Ok? && Subject(payload).Some? && Complete(body.value)
    ensures r.1.status == 200 ==>
      var user, f := Subject(payload).value, body.value;
      && r.1 == JsonResponse(200, Success(), request)
      && r.0.Keys == settings.Keys + {user}
      && r.0[user] == SettingsRow(f["max_transaction_percent"], f["max_position_percent"],
           f["trading_frequency"], f["risk_level"], c.stringify(f["active_cryptocurrencies"]))
      && forall u :: u in settings && u != user ==> r.0[u] == settings[u]
  {
    match body
    case Err(message) => (settings, JsonResponse(400, ErrorJson(message), request))
    case Ok(f) =>
      if Subject(payload).None? || !Complete(f) then
        (settings, JsonResponse(400, ErrorJson(bindError), request))
      else
        var row := SettingsRow(f["max_transaction_percent"], f["max_position_percent"],
          f["trading_frequency"], f["risk_level"], c.stringify(f["active_cryptocurrencies"]));
        (settings[Subject(payload).value := row], JsonResponse(200, Success(), request))
  }

  /** A parsed JSON value D1 binds as a column value: null, a boolean, a number or a
      string. An object throws, and so does an array, which is no byte buffer. */
  predicate Bindable(v: Json) {
    !v.JObj? && !v.JArr?
  }

  /** Every settings field the POST binds is defined and bindable; the coin list is
      bound as its JSON text, which always is. */
  predicate Complete(f: Fields) {
    && "max_transaction_percent" in f && Bindable(f["max_transaction_percent"])
    && "max_position_percent" in f && Bindable(f["max_position_percent"])
    && "trading_frequency" in f && Bindable(f["trading_frequency"])
    && "risk_level" in f && Bindable(f["risk_level"])
    && "active_cryptocurrencies" in f
  }

  /** The per-user tables of the worker's database. */
  class TenantStore {
    var credentials: map<(string, string), CredentialRow>
    var settings: map<string, SettingsRow>
    /** The message the database throws when asked to bind an undefined value. */
    const bindError: string

    constructor (bindError: string)
      ensures credentials == map[] && settings == map[] && this.bindError == bindError
    {
      credentials := map[];
      settings := map[];
      this.bindError := bindError;
    }

    /** POST /api/coinbase/credentials */
    method PostCredentials(req: WorkerRequest, verify: Verifier, body: Result<Fields, string>,
                           encrypt: Option<Json> -> Result<string, string>)
      returns (response: Response)
      modifies this, req
      ensures settings == old(settings)
      ensures match Authenticated(req.request, verify)
        case Deny(denial) => response == denial && credentials == old(credentials) && req.user == old(req.user)
        case Admit(payload) => (req.user == Some(payload) &&
          (credentials, response) == SaveCredentials(old(credentials), payload, req.request, body, encrypt, bindError))
    {
      var denial := Authenticate(req, verify);
      if denial.Some? {
        return denial.value;
      }
      var payload := req.user.value;
      if body.Err? {
        return JsonResponse(400, ErrorJson(body.error), req.request);
      }
      var encryptedKey := encrypt(Field(body.value, "apiKey"));
      if encryptedKey.Err? {
        return JsonResponse(400, ErrorJson(encryptedKey.error), req.request);
      }
      var encryptedSecret := encrypt(Field(body.value, "apiSecret"));
      if encryptedSecret.Err? {
        return JsonResponse(400, ErrorJson(encryptedSecret.error), req.request);
      }
      var user := Subject(payload);
      if user.None? {
        return JsonResponse(400, ErrorJson(bindError), req.request);
      }
      var row := CredentialRow(encryptedKey.value, encryptedSecret.value, SandboxFlag(Field(body.value, "isSandbox")));
      credentials := credentials[(user.value, Provider) := row];
      response := JsonResponse(200, Success(), req.request);
    }

    /** GET /api/portfolio, up to its answer; reads the tables only. */
    method GetPortfolio(req: WorkerRequest, verify: Verifier, decrypt: string -> Result<string, string>,
                        portfolio: Json)
      returns (response: Response)
      modifies req
      ensures match Authenticated(req.request, verify)
        case Deny(denial) => response == denial && req.user == old(req.user)
        case Admit(payload) => (req.user == Some(payload) &&
          response == PortfolioResponse(credentials, payload, req.request, decrypt, portfolio, bindError))
    {
      var denial := Authenticate(req, verify);
      if denial.Some? {
        return denial.value;
      }
      var user := Subject(req.user.value);
      if user.None? {
        return JsonResponse(500, ErrorJson(bindError), req.request);
      }
      if (user.value, Provider) !in credentials {
        return JsonResponse(400, ErrorJson("No Coinbase API credentials found"), req.request);
      }
      var row := credentials[(user.value, Provider)];
      var apiKey := decrypt(row.encryptedKey);
      if apiKey.Err? {
        return JsonResponse(500, ErrorJson(apiKey.error), req.request);
      }
      var apiSecret := decrypt(row.encryptedSecret);
      if apiSecret.Err? {
        return JsonResponse(500, ErrorJson(apiSecret.error), req.request);
      }
      response := JsonResponse(200, portfolio, req.request);
    }

    /** GET /api/trading/settings */
    method GetSettings(req: WorkerRequest, verify: Verifier, c: Codecs) returns (response: Response)
      modifies this, req
      ensures credentials == old(credentials)
      ensures match Authenticated(req.request, verify)
        case Deny(denial) => response == denial && settings == old(settings) && req.user == old(req.user)
        case Admit(payload) => (req.user == Some(payload) &&
          (settings, response) == ReadSettings(old(settings), payload, req.request, c, bindError))
    {
      var denial := Authenticate(req, verify);
      if denial.Some? {
        return denial.value;
      }
      var user := Subject(req.user.value);
      if user.None? {
        return JsonResponse(500, ErrorJson(bindError), req.request);
      }
      if user.value !in settings {
        var defaults := DefaultSettings(c);
        settings := settings[user.value := defaults];
        return SettingsReply(defaults, req.request, c);
      }
      response := SettingsReply(settings[user.value], req.request, c);
    }

    /** POST /api/trading/settings */
    method PostSettings(req: WorkerRequest, verify: Verifier, body: Result<Fields, string>, c: Codecs)
      returns (response: Response)
      modifies this, req
      ensures credentials == old(credentials)
      ensures match Authenticated(req.request, verify)
        case Deny(denial) => response == denial && settings == old(settings) && req.user == old(req.user)
        case Admit(payload) => (req.user == Some(payload) &&
          (settings, response) == WriteSettings(old(settings), payload, req.request, body, c, bindError))
    {
      var denial := Authenticate(req, verify);
      if denial.Some? {
        return denial.value;
      }
      if body.Err? {
        return JsonResponse(400, ErrorJson(body.error), req.request);
      }
      var user := Subject(req.user.value);
      if user.None? || !Complete(body.value) {
        return JsonResponse(400, ErrorJson(bindError), req.request);
      }
      var f := body.value;
      var row := SettingsRow(f["max_transaction_percent"], f["max_position_percent"],
        f["trading_frequency"], f["risk_level"], c.stringify(f["active_cryptocurrencies"]));
      settings := settings[user.value := row];
      response := JsonResponse(200, Success(), req.request);
    }

    /** GET /api/trades/recent: the gate, then `rest`, the answer the route builds
        from the trade history. */
    method GetRecentTrades(req: WorkerRequest, verify: Verifier, rest: Response) returns (response: Response)
      modifies req
      ensures match Authenticated(req.request, verify)
        case Deny(denial) => response == denial && req.user == old(req.user)
        case Admit(payload) => req.user == Some(payload) && response == rest
    {
      var denial := Authenticate(req, verify);
      if denial.Some? {
        return denial.value;
      }
      response := rest;
    }
  }

  /** Saving credentials twice for one user keeps one row, holding the second submission,
      whatever the first encryption produced (each submission draws its own random IVs). */
  lemma CredentialsResubmitted(credentials: map<(string, string), CredentialRow>, payload: Json, request: Request,
                               first: Result<Fields, string>, second: Result<Fields, string>,
                               encrypt1: Option<Json> -> Result<string, string>,
                               encrypt2: Option<Json> -> Result<string, string>, bindError: string)
    requires SaveCredentials(credentials, payload, request, first, encrypt1, bindError).1.status == 200
    requires var once := SaveCredentials(credentials, payload, request, first, encrypt1, bindError).0;
      SaveCredentials(once, payload, request, second, encrypt2, bindError).1.status == 200
    ensures var once := SaveCredentials(credentials, payload, request, first, encrypt1, bindError).0;
      SaveCredentials(once, payload, request, second, encrypt2, bindError).0 ==
      SaveCredentials(credentials, payload, request, second, encrypt2, bindError).0
  {
    var once := SaveCredentials(credentials, payload, request, first, encrypt1, bindError).0;
    var twice := SaveCredentials(once, payload, request, second, encrypt2, bindError).0;
    var direct := SaveCredentials(credentials, payload, request, second, encrypt2, bindError).0;
    assert twice.Keys == direct.Keys;
  }

  /** Without a stored row the portfolio route answers 400 before any decryption:
      the answer does not depend on the decryption at all. */
  lemma NoCredentialsBeforeDecrypt(credentials: map<(string, string), CredentialRow>, payload: Json, request: Request,
                                   decrypt: string -> Result<string, string>, other: string -> Result<string, string>,
                                   portfolio: Json, bindError: string)
    requires Subject(payload).Some? && (Subject(payload).value, Provider) !in credentials
    ensures PortfolioResponse(credentials, payload, request, decrypt, portfolio, bindError) ==
      JsonResponse(400, ErrorJson("No Coinbase API credentials found"), request)
    ensures PortfolioResponse(credentials, payload, request, decrypt, portfolio, bindError) ==
      PortfolioResponse(credentials, payload, request, other, portfolio, bindError)
  {
  }

  /** A stored row whose key or secret fails to decrypt surfaces as 500 with that error. */
  lemma DecryptFailureSurfaces(credentials: map<(string, string), CredentialRow>, payload: Json, request: Request,
                               decrypt: string -> Result<string, string>, portfolio: Json, bindError: string)
    requires Subject(payload).Some? && (Subject(payload).value, Provider) in credentials
    ensures var row := credentials[(Subject(payload).value, Provider)];
      decrypt(row.encryptedKey).Err? ==>
        PortfolioResponse(credentials, payload, request, decrypt, portfolio, bindError) ==
        JsonResponse(500, ErrorJson(decrypt(row.encryptedKey).error), request)
    ensures var row := credentials[(Subject(payload).value, Provider)];
      PortfolioResponse(credentials, payload, request, decrypt, portfolio, bindError).status == 200 <==>
        decrypt(row.encryptedKey).Ok? && decrypt(row.encryptedSecret).Ok?
  {
  }

  /** A user's first read stores the defaults and returns them: 20, 20, 'Optimal',
      'Medium' and the five default coins. */
  lemma FirstReadDefaults(settings: map<string, SettingsRow>, payload: Json, request: Request, c: Codecs, bindError: string)
    requires Lawful(c)
    requires Subject(payload).Some? && Subject(payload).value !in settings
    ensures var r := ReadSettings(settings, payload, request, c, bindError);
      && r.0 == settings[Subject(payload).value := DefaultSettings(c)]
      && r.1 == JsonResponse(200, JObj(map[
           "max_transaction_percent" := JNum(20),
           "max_position_percent" := JNum(20),
           "trading_frequency" := JStr("Optimal"),
           "risk_level" := JStr("Medium"),
           "active_cryptocurrencies" := JArr(DefaultCryptocurrencies)]), request)
  {
    assert c.parse(c.stringify(JArr(DefaultCryptocurrencies))) == Ok(JArr(DefaultCryptocurrencies));
  }

  /** Reading settings again changes nothing and gives the same answer as the first read. */
  lemma ReadSettingsStable(settings: map<string, SettingsRow>, payload: Json, request: Request, c: Codecs, bindError: string)
    ensures var first := ReadSettings(settings, payload, request, c, bindError);
      ReadSettings(first.0, payload, request, c, bindError) == first
  {
  }

  /** A settings field holding an object or an array cannot be bound: the POST answers
      400 and nothing is stored. */
  lemma UnbindableSettingRejected(settings: map<string, SettingsRow>, payload: Json, request: Request,
                                  f: Fields, key: string, c: Codecs, bindError: string)
    requires key in {"max_transaction_percent", "max_position_percent", "trading_frequency", "risk_level"}
    requires key in f && (f[key].JObj? || f[key].JArr?)
    ensures WriteSettings(settings, payload, request, Ok(f), c, bindError) ==
      (settings, JsonResponse(400, ErrorJson(bindError), request))
  {
  }

  /** After a successful settings POST, reading returns exactly the posted values. */
  lemma WriteThenRead(settings: map<string, SettingsRow>, payload: Json, request: Request,
                      body: Result<Fields, string>, c: Codecs, bindError: string)
    requires Lawful(c)
    requires WriteSettings(settings, payload, request, body, c, bindError).1.status == 200
    ensures var written := WriteSettings(settings, payload, request, body, c, bindError).0;
      var f := body.value;
      ReadSettings(written, payload, request, c, bindError) == (written, JsonResponse(200, JObj(map[
        "max_transaction_percent" := f["max_transaction_percent"],
        "max_position_percent" := f["max_position_percent"],
        "trading_frequency" := f["trading_frequency"],
        "risk_level" := f["risk_level"],
        "active_cryptocurrencies" := f["active_cryptocurrencies"]]), request))
  {
    var f := body.value;
    assert c.parse(c.stringify(f["active_cryptocurrencies"])) == Ok(f["active_cryptocurrencies"]);
  }

  // ---------------------------------------------------------------- scheduled

  /** A row of the scheduled query: a user with credentials and settings. */
  datatype UserRow = UserRow(id: string, email: string)

  /** What one iteration of the batch did for its user. */
  datatype UserOutcome = Processed(email: string) | Failed(email: string, message: string)

  /** The batch stopped early for lack of users, or visited them. */
  datatype ScheduledRun = NoUsers | Visited(outcomes: seq<UserOutcome>)

  /** One iteration: the per-user work inside its own try/catch. */
  function Attempt(user: UserRow, work: UserRow -> Result<(), string>): (r: UserOutcome)
    ensures r.email == user.email
    ensures r.Failed? <==> work(user).Err?
    ensures r.Failed? ==> r.message == work(user).error
  {
    match work(user)
    case Ok(_) => Processed(user.email)
    case Err(message) => Failed(user.email, message)
  }

  /** scheduled: `users` is the query's result list, None when the result or its list is missing. */
  method Scheduled(users: Option<seq<UserRow>>, work: UserRow -> Result<(), string>) returns (run: ScheduledRun)
    ensures run == NoUsers <==> users.None? || |users.value| == 0
    ensures run.Visited? ==> |run.outcomes| == |users.value|
    ensures run.Visited? ==> forall i :: 0 <= i < |users.value| ==> run.outcomes[i] == Attempt(users.value[i], work)
  {
    if users.None? || |users.value| == 0 {
      return NoUsers;
    }
    var outcomes: seq<UserOutcome> := [];
    for i := 0 to |users.value|
      invariant |outcomes| == i
      invariant forall k :: 0 <= k < i ==> outcomes[k] == Attempt(users.value[k], work)
    {
      var user := users.value[i];
      var result := work(user);
      if result.Ok? {
        outcomes := outcomes + [Processed(user.email)];
      } else {
        outcomes := outcomes + [Failed(user.email, result.error)];
      }
    }
    run := Visited(outcomes);
  }
}
