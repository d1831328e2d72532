/** The osu! OAuth client: credentials from the environment, the authorize
    URL, the authorization-code and client-credentials token requests, the
    process-wide client-token cache, and the "current user" profile fetch. */
module OsuAuth {
  import opened Js
  import opened Http
  import opened OsuTypes

  /** The environment variables the module reads (None = unset). */
  datatype EnvVars = EnvVars(clientId: Option<string>, clientSecret: Option<string>, redirectUri: Option<string>, nodeEnv: Option<string>)

  /** The module-level constants computed from the environment at load time. */
  datatype Credentials = Credentials(clientId: string, clientSecret: string, redirectUri: string)

  const DefaultRedirectUri := "http://localhost:3000/auth/osu/callback"
  const AuthorizeEndpoint := "https://osu.ppy.sh/oauth/authorize"
  const TokenEndpoint := "https://osu.ppy.sh/oauth/token"
  const MeEndpoint := "https://osu.ppy.sh/api/v2/me"
  const FormContentType := ("Content-Type", "application/x-www-form-urlencoded")

  /** Unset or empty client id and secret read as ""; an unset or empty
      redirect URI falls back to the localhost callback. */
  function LoadCredentials(env: EnvVars): (c: Credentials)
    ensures c.clientId == (if env.clientId.Some? then env.clientId.value else "")
    ensures c.clientSecret == (if env.clientSecret.Some? then env.clientSecret.value else "")
    ensures c.redirectUri == (if env.redirectUri.None? || env.redirectUri == Some("") then DefaultRedirectUri else env.redirectUri.value)
  {
    Credentials(Or(env.clientId, "", ""), Or(env.clientSecret, "", ""), Or(env.redirectUri, "", DefaultRedirectUri))
  }

  predicate Configured(c: Credentials)
  {
    c.clientId != "" && c.clientSecret != ""
  }

  /** A URL as its endpoint and its (decoded) query pairs. */
  datatype Url = Url(endpoint: string, query: seq<(string, string)>)

  /** `getOsuAuthUrl`: throws without a client id or secret; otherwise the
      authorize endpoint with the four query parameters in order. */
  function GetOsuAuthUrl(c: Credentials): (r: Result<Url>)
    ensures r.Err? <==> !Configured(c)
    ensures r.Err? ==> r.message == "OSU_CLIENT_ID or OSU_CLIENT_SECRET is not set in environment variables."
    ensures r.Ok? ==> r.value.endpoint == AuthorizeEndpoint && |r.value.query| == 4
    ensures r.Ok? ==> QueryGet(r.value.query, "client_id") == Some(c.clientId)
    ensures r.Ok? ==> QueryGet(r.value.query, "redirect_uri") == Some(c.redirectUri)
    ensures r.Ok? ==> QueryGet(r.value.query, "response_type") == Some("code")
    ensures r.Ok? ==> QueryGet(r.value.query, "scope") == Some("public identify")
  {
    if !Configured(c) then Err("OSU_CLIENT_ID or OSU_CLIENT_SECRET is not set in environment variables.")
    else
      var q := [("client_id", c.clientId), ("redirect_uri", c.redirectUri),
                ("response_type", "code"), ("scope", "public identify")];
      QueryGetFirst(q, "response_type", 2);
      QueryGetFirst(q, "scope", 3);
      Ok(Url(AuthorizeEndpoint, q))
  }

  /** With the redirect URI unset, the authorize URL sends the user back to
      the localhost callback. */
  lemma AuthUrlDefaultRedirect(env: EnvVars)
    requires env.redirectUri.None? && Holds(env.clientId, "") && Holds(env.clientSecret, "")
    ensures GetOsuAuthUrl(LoadCredentials(env)).Ok?
    ensures QueryGet(GetOsuAuthUrl(LoadCredentials(env)).value.query, "redirect_uri") == Some(DefaultRedirectUri)
  {
  }

  // ---------------------------------------------------------------------
  // Authorization-code exchange

  datatype TokenBody = TokenBody(access_token: string, refresh_token: string, expires_in: real)

  function CodeExchangeRequest(c: Credentials, code: string): Request
  {
    Request("POST", TokenEndpoint, [FormContentType],
            [("client_id", c.clientId), ("client_secret", c.clientSecret), ("code", code),
             ("grant_type", "authorization_code"), ("redirect_uri", c.redirectUri)])
  }

  /** `getOsuToken(code)`: one POST, whatever the credentials; the parsed
      body is returned unchanged; a non-2xx status throws with the status
      and the body text. */
  function GetOsuToken(c: Credentials, code: string, endpoint: Request -> Response<TokenBody>): (x: Exchange<TokenBody>)
    ensures x.sent == [CodeExchangeRequest(c, code)]
    ensures x.result.Ok? <==> endpoint(CodeExchangeRequest(c, code)).Delivered?
    ensures x.result.Ok? ==> x.result.value == endpoint(CodeExchangeRequest(c, code)).body
    ensures endpoint(CodeExchangeRequest(c, code)).HttpError? ==>
      var e := endpoint(CodeExchangeRequest(c, code));
      x.result == Err("Failed to get access token: " + Decimal(e.status) + " - " + e.text)
    ensures endpoint(CodeExchangeRequest(c, code)).BadJson? ==>
      x.result == Err("Failed to parse token response: " + endpoint(CodeExchangeRequest(c, code)).reason)
    ensures endpoint(CodeExchangeRequest(c, code)).NetworkFailure? ==>
      x.result == Err(endpoint(CodeExchangeRequest(c, code)).reason)
  {
    var req := CodeExchangeRequest(c, code);
    var result := match endpoint(req)
      case Delivered(body) => Ok(body)
      case HttpError(status, text) => Err("Failed to get access token: " + Decimal(status) + " - " + text)
      case BadJson(reason) => Err("Failed to parse token response: " + reason)
      case NetworkFailure(reason) => Err(reason);
    Exchange(result, [req])
  }

  // ---------------------------------------------------------------------
  // Client-credentials token and its cache

  datatype ClientTokenBody = ClientTokenBody(access_token: string, expires_in: real, token_type: string)

  function ClientCredentialsRequest(c: Credentials): Request
  {
    Request("POST", TokenEndpoint, [FormContentType],
            [("client_id", c.clientId), ("client_secret", c.clientSecret),
             ("grant_type", "client_credentials"), ("scope", "public")])
  }

  /** `getOsuClientToken()`: fails before any request when a credential is
      empty; otherwise one POST whose non-2xx status throws with the status
      and the body text. */
  function GetOsuClientToken(c: Credentials, endpoint: Request -> Response<ClientTokenBody>): (x: Exchange<ClientTokenBody>)
    ensures !Configured(c) ==> x == Exchange(Err("OSU_CLIENT_ID and OSU_CLIENT_SECRET must be configured"), [])
    ensures Configured(c) ==> x.sent == [ClientCredentialsRequest(c)]
    ensures Configured(c) ==> (x.result.Ok? <==> endpoint(ClientCredentialsRequest(c)).Delivered?)
    ensures Configured(c) && x.result.Ok? ==> x.result.value == endpoint(ClientCredentialsRequest(c)).body
    ensures Configured(c) && endpoint(ClientCredentialsRequest(c)).HttpError? ==>
      var e := endpoint(ClientCredentialsRequest(c));
      x.result == Err("Failed to get client token: " + Decimal(e.status) + " " + e.text)
    ensures Configured(c) && endpoint(ClientCredentialsRequest(c)).BadJson? ==>
      x.result == Err(endpoint(ClientCredentialsRequest(c)).reason)
    ensures Configured(c) && endpoint(ClientCredentialsRequest(c)).NetworkFailure? ==>
      x.result == Err(endpoint(ClientCredentialsRequest(c)).reason)
  {
    if !Configured(c) then Exchange(Err("OSU_CLIENT_ID and OSU_CLIENT_SECRET must be configured"), [])
    else
      var req := ClientCredentialsRequest(c);
      var result := match endpoint(req)
        case Delivered(body) => Ok(body)
        case HttpError(status, text) => Err("Failed to get client token: " + Decimal(status) + " " + text)
        case BadJson(reason) => Err(reason)
        case NetworkFailure(reason) => Err(reason);
      Exchange(result, [req])
  }

  /** The cached `{token, expires}` record; `expires` is in epoch seconds. */
  datatype CachedToken = CachedToken(token: string, expires: real)

  /** The cache may be used at time `now` only while it expires more than
      60 seconds later. */
  predicate Reusable(cache: Option<CachedToken>, now: real)
  {
    cache.Some? && cache.value.expires > now + 60.0
  }

  /** The 60-second rule is strict: an expiry exactly 60 seconds away, or
      59, refreshes; 61 does not. */
  lemma ReuseBoundary(token: string, now: real)
    ensures !Reusable(Some(CachedToken(token, now + 59.0)), now)
    ensures !Reusable(Some(CachedToken(token, now + 60.0)), now)
    ensures Reusable(Some(CachedToken(token, now + 61.0)), now)
    ensures !Reusable(None, now)
  {
  }

  /** One `getValidClientToken()` call: what it returns, the requests it
      sends and the cache it leaves behind. */
  datatype TokenStep = TokenStep(result: Result<string>, sent: seq<Request>, cache: Option<CachedToken>)

  /** `getValidClientToken()` at clock reading `now` (`Date.now() / 1000`,
      read before any request): the cached token, with no request and the
      cache untouched, while it is reusable; otherwise a client-credentials
      request whose success caches the new token as expiring `expires_in`
      seconds after `now` and returns it, and whose failure propagates and
      leaves the cache as it was. */
  function ValidClientToken(cache: Option<CachedToken>, c: Credentials, now: real, endpoint: Request -> Response<ClientTokenBody>): (s: TokenStep)
    ensures Reusable(cache, now) ==> s == TokenStep(Ok(cache.value.token), [], cache)
    ensures !Reusable(cache, now) ==> s.sent == GetOsuClientToken(c, endpoint).sent
    ensures s.sent == [] <==> Reusable(cache, now) || !Configured(c)
    ensures !Reusable(cache, now) && GetOsuClientToken(c, endpoint).result.Ok? ==>
      var body := GetOsuClientToken(c, endpoint).result.value;
      s.result == Ok(body.access_token) && s.cache == Some(CachedToken(body.access_token, now + body.expires_in))
    ensures s.result.Err? <==> !Reusable(cache, now) && GetOsuClientToken(c, endpoint).result.Err?
    ensures s.result.Err? ==> s.cache == cache && s.result.message == GetOsuClientToken(c, endpoint).result.message
    ensures s.result.Ok? ==> s.cache.Some? && s.cache.value.token == s.result.value
  {
    if Reusable(cache, now) then TokenStep(Ok(cache.value.token), [], cache)
    else
      var x := GetOsuClientToken(c, endpoint);
      match x.result
      case Err(message) => TokenStep(Err(message), x.sent, cache)
      case Ok(body) => TokenStep(Ok(body.access_token), x.sent, Some(CachedToken(body.access_token, now + body.expires_in)))
  }

  /** The module-level `clientToken` variable and `getValidClientToken`. */
  class ClientTokenCache {
    var cached: Option<CachedToken>

    constructor ()
      ensures cached == None
    {
      cached := None;
    }

    method GetValidClientToken(c: Credentials, now: real, endpoint: Request -> Response<ClientTokenBody>)
      returns (r: Result<string>, sent: seq<Request>)
      modifies this
      ensures TokenStep(r, sent, cached) == ValidClientToken(old(cached), c, now, endpoint)
    {
      if Reusable(cached, now) {
        return Ok(cached.value.token), [];
      }
      var x := GetOsuClientToken(c, endpoint);
      sent := x.sent;
      match x.result
      case Err(message) =>
        r := Err(message);
      case Ok(body) =>
        cached := Some(CachedToken(body.access_token, now + body.expires_in));
        r := Ok(cached.value.token);
    }

    /** The shape shared by the osu! API clients: obtain the client token,
        then send the one request built from it; a token failure propagates
        and nothing else is sent. */
    method WithClientToken<T, U>(c: Credentials, now: real, tokenEndpoint: Request -> Response<ClientTokenBody>,
                                 request: string -> Request, endpoint: Request -> Response<T>,
                                 decode: Response<T> -> Result<U>)
      returns (r: Result<U>, sent: seq<Request>)
      modifies this
      ensures var step := ValidClientToken(old(cached), c, now, tokenEndpoint);
        && cached == step.cache
        && (step.result.Err? ==> r == Err(step.result.message) && sent == step.sent)
        && (step.result.Ok? ==>
              sent == step.sent + [request(step.result.value)]
              && r == decode(endpoint(request(step.result.value))))
    {
      var token, tokenSent := GetValidClientToken(c, now, tokenEndpoint);
      match token
      case Err(message) =>
        r, sent := Err(message), tokenSent;
      case Ok(t) =>
        var req := request(t);
        r, sent := decode(endpoint(req)), tokenSent + [req];
    }
  }

  /** Two calls in a row on a fresh cache: the first sends the one
      client-credentials request; when the token it obtains lives more than
      60 seconds beyond the second call's clock reading, the second call
      sends nothing and returns the same token. */
  method RefreshThenReuse(c: Credentials, t1: real, t2: real, endpoint: Request -> Response<ClientTokenBody>)
    returns (r1: Result<string>, sent1: seq<Request>, r2: Result<string>, sent2: seq<Request>)
    requires Configured(c) && endpoint(ClientCredentialsRequest(c)).Delivered?
    requires t1 + endpoint(ClientCredentialsRequest(c)).body.expires_in > t2 + 60.0
    ensures sent1 == [ClientCredentialsRequest(c)] && sent2 == []
    ensures r1 == r2 == Ok(endpoint(ClientCredentialsRequest(c)).body.access_token)
  {
    var cache := new ClientTokenCache();
    r1, sent1 := cache.GetValidClientToken(c, t1, endpoint);
    r2, sent2 := cache.GetValidClientToken(c, t2, endpoint);
  }

  // ---------------------------------------------------------------------
  // The signed-in user's profile

  datatype MyStatistics = MyStatistics(pp: Option<real>, global_rank: Option<int>, country_rank: Option<int>, country: string)

  datatype MyInfo = MyInfo(
    id: Option<int>,
    username: Option<string>,
    avatar_url: Option<string>,
    country_code: Option<string>,
    cover: Option<Cover>,
    statistics: Option<MyStatistics>)

  /** The object `getMyOsuInfo` builds from the provider's record: identity
      fields copied, `cover` and `statistics` present exactly when sent,
      statistics copied raw with `country` = `country_code || ''`. */
  function MapMyInfo(d: ProviderUser): (r: MyInfo)
    ensures r.id == d.id && r.username == d.username && r.avatar_url == d.avatar_url && r.country_code == d.country_code
    ensures r.cover == MapCover(d.cover)
    ensures r.statistics.Some? <==> d.statistics.Some?
    ensures r.statistics.Some? ==>
      var s := d.statistics.value;
      r.statistics.value == MyStatistics(s.pp, s.global_rank, s.country_rank,
                                         if d.country_code.Some? then d.country_code.value else "")
  {
    MyInfo(d.id, d.username, d.avatar_url, d.country_code, MapCover(d.cover),
           match d.statistics
           case None => None
           case Some(s) => Some(MyStatistics(s.pp, s.global_rank, s.country_rank, Or(d.country_code, "", ""))))
  }

  function MeRequest(accessToken: string): Request
  {
    Request("GET", MeEndpoint, [("Authorization", "Bearer " + accessToken)], [])
  }

  /** `getMyOsuInfo(accessToken)`: one bearer-authenticated GET; a non-2xx
      status throws 'Failed to get user info'. */
  function GetMyOsuInfo(accessToken: string, endpoint: Request -> Response<ProviderUser>): (x: Exchange<MyInfo>)
    ensures x.sent == [MeRequest(accessToken)]
    ensures x.result.Ok? <==> endpoint(MeRequest(accessToken)).Delivered?
    ensures x.result.Ok? ==> x.result.value == MapMyInfo(endpoint(MeRequest(accessToken)).body)
    ensures endpoint(MeRequest(accessToken)).HttpError? ==> x.result == Err("Failed to get user info")
    ensures endpoint(MeRequest(accessToken)).BadJson? ==> x.result == Err(endpoint(MeRequest(accessToken)).reason)
    ensures endpoint(MeRequest(accessToken)).NetworkFailure? ==> x.result == Err(endpoint(MeRequest(accessToken)).reason)
  {
    var req := MeRequest(accessToken);
    var result := match endpoint(req)
      case Delivered(body) => Ok(MapMyInfo(body))
      case HttpError(_, _) => Err("Failed to get user info")
      case BadJson(reason) => Err(reason)
      case NetworkFailure(reason) => Err(reason);
    Exchange(result, [req])
  }
}
