/** The OAuth callback route (`GET /api/auth/callback/osu`): it exchanges the
    authorization code for a token, fetches the signed-in profile, records
    the user, and redirects to `/debug` with either an error or the
    sign-in details and the `user_session` cookie. */
module OAuthCallback {
  import opened Js
  import opened Http
  import opened OsuTypes
  import opened OsuAuth

  /** The callback's query parameters (None = absent). */
  datatype CallbackQuery = CallbackQuery(code: Option<string>, error: Option<string>, error_description: Option<string>)

  /** The object handed to `CreateUser`. */
  datatype CreateUserInput = CreateUserInput(
    osuid: Option<int>,
    username: Option<string>,
    avatar_url: Option<string>,
    cover_url: Option<string>,
    country_code: Option<string>,
    pp: real,
    global_rank: Option<int>,
    country_rank: Option<int>)

  /** The fields of the stored user the callback reads back. */
  datatype UserSession = UserSession(id: int, osuid: int, username: string, avatar_url: Option<string>, country_code: string)

  /** What `await CreateUser(...)` yields: a stored user, no value at all
      (what the stub in app/lib/UserOperation.ts returns), or a thrown error. */
  datatype CreateOutcome = Created(session: UserSession) | NoValue | Threw(message: string)

  /** The message of the TypeError thrown by reading `username` of undefined. */
  const UndefinedUsername := "Cannot read properties of undefined (reading 'username')"

  /** An outward effect of the handler, in the order it happens. */
  datatype Effect = Sent(request: Request) | CreateUserCalled(input: CreateUserInput)

  datatype CallbackOutcome = CallbackOutcome(redirect: Redirect, effects: seq<Effect>)

  function Sends(requests: seq<Request>): (r: seq<Effect>)
    ensures |r| == |requests| && forall i :: 0 <= i < |r| ==> r[i] == Sent(requests[i])
  {
    seq(|requests|, i requires 0 <= i < |requests| => Sent(requests[i]))
  }

  /** The profile-to-user mapping: identity fields copied, `cover_url` the
      cover's url when there is a cover, `pp` 0 when missing, and each rank
      null when missing or 0. */
  function CreateUserInputOf(info: MyInfo): (u: CreateUserInput)
    ensures u.osuid == info.id && u.username == info.username && u.avatar_url == info.avatar_url
    ensures u.country_code == info.country_code
    ensures u.cover_url == (if info.cover.Some? then Some(info.cover.value.url) else None)
    ensures u.pp == (if info.statistics.Some? && info.statistics.value.pp.Some? then info.statistics.value.pp.value else 0.0)
    ensures u.global_rank != Some(0) && u.country_rank != Some(0)
    ensures info.statistics.Some? && info.statistics.value.global_rank != Some(0) ==> u.global_rank == info.statistics.value.global_rank
    ensures info.statistics.Some? && info.statistics.value.country_rank != Some(0) ==> u.country_rank == info.statistics.value.country_rank
    ensures info.statistics.None? ==> u.global_rank.None? && u.country_rank.None?
  {
    var stats := info.statistics;
    CreateUserInput(info.id, info.username, info.avatar_url,
                    if info.cover.Some? then Some(info.cover.value.url) else None,
                    info.country_code,
                    if stats.Some? then Or(stats.value.pp, 0.0, 0.0) else 0.0,
                    if stats.Some? then OrNull(stats.value.global_rank, 0) else None,
                    if stats.Some? then OrNull(stats.value.country_rank, 0) else None)
  }

  /** The three awaited steps of the inner block and what they did. */
  datatype SignInFlow = SignInFlow(result: Result<UserSession>, effects: seq<Effect>)

  /** Token exchange, then the profile fetch with the obtained access token,
      then `CreateUser` with the mapped profile; the first failure stops the
      sequence. */
  function SignIn(c: Credentials, code: string, tokenEndpoint: Request -> Response<TokenBody>,
                  meEndpoint: Request -> Response<ProviderUser>, createUser: CreateUserInput -> CreateOutcome): (f: SignInFlow)
    ensures var tok := GetOsuToken(c, code, tokenEndpoint);
      && |f.effects| >= 1 && f.effects[0] == Sent(CodeExchangeRequest(c, code))
      && (tok.result.Err? ==> f == SignInFlow(Err(tok.result.message), [Sent(CodeExchangeRequest(c, code))]))
      && (tok.result.Ok? ==>
            var me := GetMyOsuInfo(tok.result.value.access_token, meEndpoint);
            && |f.effects| >= 2 && f.effects[1] == Sent(MeRequest(tok.result.value.access_token))
            && (me.result.Err? ==> f.result == Err(me.result.message) && |f.effects| == 2)
            && (me.result.Ok? ==>
                  var input := CreateUserInputOf(me.result.value);
                  && f.effects == [Sent(CodeExchangeRequest(c, code)), Sent(MeRequest(tok.result.value.access_token)), CreateUserCalled(input)]
                  && (createUser(input).Created? ==> f.result == Ok(createUser(input).session))
                  && (createUser(input).NoValue? ==> f.result == Err(UndefinedUsername))
                  && (createUser(input).Threw? ==> f.result == Err(createUser(input).message))))
  {
    var tok := GetOsuToken(c, code, tokenEndpoint);
    var afterToken := Sends(tok.sent);
    match tok.result
    case Err(message) => SignInFlow(Err(message), afterToken)
    case Ok(tokenData) =>
      var me := GetMyOsuInfo(tokenData.access_token, meEndpoint);
      var afterMe := afterToken + Sends(me.sent);
      match me.result
      case Err(message) => SignInFlow(Err(message), afterMe)
      case Ok(userInfo) =>
        var input := CreateUserInputOf(userInfo);
        var afterCreate := afterMe + [CreateUserCalled(input)];
        match createUser(input)
        case Created(session) => SignInFlow(Ok(session), afterCreate)
        case NoValue => SignInFlow(Err(UndefinedUsername), afterCreate)
        case Threw(message) => SignInFlow(Err(message), afterCreate)
  }

  function ErrorRedirect(message: string): Redirect
  {
    Redirect("/debug", [("error", message)], Keep)
  }

  /** The success query, in the order the handler sets it. */
  function SuccessQuery(s: UserSession): seq<(string, string)>
  {
    [("success", "true"), ("username", s.username), ("osuid", Decimal(s.osuid)), ("userId", Decimal(s.id))]
  }

  /** The projection of the stored user kept in the cookie. */
  function SessionJson(s: UserSession): (j: Json)
    ensures j.JObj? && j.fields.Keys == {"id", "osuid", "username", "avatar_url", "country_code"}
    ensures j.fields["osuid"] == JNum(s.osuid as real) && j.fields["id"] == JNum(s.id as real)
    ensures j.fields["username"] == JStr(s.username) && j.fields["country_code"] == JStr(s.country_code)
    ensures j.fields["avatar_url"] == JStr(if s.avatar_url.Some? then s.avatar_url.value else "")
  {
    JObj(map["id" := JNum(s.id as real), "osuid" := JNum(s.osuid as real), "username" := JStr(s.username),
             "avatar_url" := JStr(Or(s.avatar_url, "", "")), "country_code" := JStr(s.country_code)])
  }

  const SessionMaxAge := 604800

  /** Seven days, the whole site, `lax`; `httpOnly` and `secure` exactly in
      production. */
  function SessionAttributes(env: EnvVars): (a: CookieAttributes)
    ensures a.httpOnly <==> env.nodeEnv == Some("production")
    ensures a.secure <==> env.nodeEnv == Some("production")
    ensures a.sameSite == "lax" && a.maxAge == 7 * 24 * 60 * 60 && a.path == "/"
  {
    var production := env.nodeEnv == Some("production");
    CookieAttributes(production, production, "lax", SessionMaxAge, "/")
  }

  /** The whole handler as a function of the query, the environment and the
      three upstream calls: an `error` parameter or a missing code
      redirects at once with nothing sent; otherwise a failure of any step
      redirects with 'Failed to process OAuth: ' and its message and no
      cookie; success redirects with the session's details and sets the
      cookie. */
  function Callback(q: CallbackQuery, env: EnvVars, tokenEndpoint: Request -> Response<TokenBody>,
                    meEndpoint: Request -> Response<ProviderUser>, createUser: CreateUserInput -> CreateOutcome): (out: CallbackOutcome)
    ensures Holds(q.error, "") ==>
      out == CallbackOutcome(ErrorRedirect(if Holds(q.error_description, "") then q.error_description.value else q.error.value), [])
    ensures !Holds(q.error, "") && !Holds(q.code, "") ==>
      out == CallbackOutcome(ErrorRedirect("No authorization code provided"), [])
    ensures out.effects == [] <==> Holds(q.error, "") || !Holds(q.code, "")
    ensures out.redirect.path == "/debug" && !out.redirect.cookie.DeleteSession?
    ensures !Holds(q.error, "") && Holds(q.code, "") ==>
      var flow := SignIn(LoadCredentials(env), q.code.value, tokenEndpoint, meEndpoint, createUser);
      && out.effects == flow.effects
      && (flow.result.Err? ==> out.redirect == ErrorRedirect("Failed to process OAuth: " + flow.result.message))
      && (flow.result.Ok? ==>
            out.redirect == Redirect("/debug", SuccessQuery(flow.result.value),
                                     SetSession(SessionJson(flow.result.value), SessionAttributes(env))))
  {
    if Holds(q.error, "") then
      CallbackOutcome(ErrorRedirect(Or(q.error_description, "", q.error.value)), [])
    else if !Holds(q.code, "") then
      CallbackOutcome(ErrorRedirect("No authorization code provided"), [])
    else
      var flow := SignIn(LoadCredentials(env), q.code.value, tokenEndpoint, meEndpoint, createUser);
      match flow.result
      case Err(message) => CallbackOutcome(ErrorRedirect("Failed to process OAuth: " + message), flow.effects)
      case Ok(session) =>
        CallbackOutcome(Redirect("/debug", SuccessQuery(session), SetSession(SessionJson(session), SessionAttributes(env))),
                        flow.effects)
  }

  /** The success URL's query, built by four `set` calls on a fresh
      `searchParams`. */
  method BuildSuccessQuery(session: UserSession) returns (query: seq<(string, string)>)
    ensures query == SuccessQuery(session)
  {
    var params := new SearchParams();
    params.Set("success", "true");
    params.Set("username", session.username);
    SetAbsentAppends([("success", "true")], "username", session.username);
    params.Set("osuid", Decimal(session.osuid));
    SetAbsentAppends([("success", "true"), ("username", session.username)], "osuid", Decimal(session.osuid));
    params.Set("userId", Decimal(session.id));
    SetAbsentAppends([("success", "true"), ("username", session.username), ("osuid", Decimal(session.osuid))],
                     "userId", Decimal(session.id));
    query := params.entries;
  }

  /** The handler. */
  method Get(q: CallbackQuery, env: EnvVars, tokenEndpoint: Request -> Response<TokenBody>,
             meEndpoint: Request -> Response<ProviderUser>, createUser: CreateUserInput -> CreateOutcome)
    returns (out: CallbackOutcome)
    ensures out == Callback(q, env, tokenEndpoint, meEndpoint, createUser)
  {
    if Holds(q.error, "") {
      return CallbackOutcome(ErrorRedirect(Or(q.error_description, "", q.error.value)), []);
    }
    if !Holds(q.code, "") {
      return CallbackOutcome(ErrorRedirect("No authorization code provided"), []);
    }
    var flow := SignIn(LoadCredentials(env), q.code.value, tokenEndpoint, meEndpoint, createUser);
    if flow.result.Err? {
      return CallbackOutcome(ErrorRedirect("Failed to process OAuth: " + flow.result.message), flow.effects);
    }
    var session := flow.result.value;
    var query := BuildSuccessQuery(session);
    out := CallbackOutcome(Redirect("/debug", query, SetSession(SessionJson(session), SessionAttributes(env))),
                           flow.effects);
  }

  /** The success query reads back as the session's username, osuid and
      row id. */
  lemma {:induction false} SuccessQueryReads(s: UserSession)
    ensures QueryGet(SuccessQuery(s), "success") == Some("true")
    ensures QueryGet(SuccessQuery(s), "username") == Some(s.username)
    ensures QueryGet(SuccessQuery(s), "osuid") == Some(Decimal(s.osuid))
    ensures QueryGet(SuccessQuery(s), "userId") == Some(Decimal(s.id))
    ensures ParseInt(Decimal(s.osuid)) == Some(s.osuid)
  {
    var q := SuccessQuery(s);
    QueryGetFirst(q, "username", 1);
    QueryGetFirst(q, "osuid", 2);
    QueryGetFirst(q, "userId", 3);
    ParseIntDecimal(s.osuid);
  }

  /** The session cookie is set exactly when all three steps succeed. */
  lemma CookieOnlyAfterCreate(q: CallbackQuery, env: EnvVars, tokenEndpoint: Request -> Response<TokenBody>,
                              meEndpoint: Request -> Response<ProviderUser>, createUser: CreateUserInput -> CreateOutcome)
    ensures var out := Callback(q, env, tokenEndpoint, meEndpoint, createUser);
      out.redirect.cookie.SetSession? <==>
        && !Holds(q.error, "") && Holds(q.code, "")
        && |out.effects| == 3 && out.effects[2].CreateUserCalled?
        && createUser(out.effects[2].input).Created?
  {
  }

  /** With `CreateUser` as the empty stub it is, no sign-in ever succeeds:
      every callback ends in an error redirect and sets no cookie. */
  lemma StubNeverSignsIn(q: CallbackQuery, env: EnvVars, tokenEndpoint: Request -> Response<TokenBody>,
                         meEndpoint: Request -> Response<ProviderUser>)
    ensures var out := Callback(q, env, tokenEndpoint, meEndpoint, _ => NoValue);
      && out.redirect.cookie.Keep?
      && QueryGet(out.redirect.query, "success").None?
      && |out.redirect.query| == 1 && out.redirect.query[0].0 == "error"
  {
  }
}
