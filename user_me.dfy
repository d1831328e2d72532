/** The current-user route (`/api/user/me`): `GET` resolves the
    `user_session` cookie to the stored user, clearing a cookie that no
    longer leads to one; `DELETE` signs out. */
module UserMe {
  import opened Js
  import opened Http
  import opened UserOperation
  import OAuthCallback

  /** Whether the handler called `getUserByOsuId`, and with which value
      (None = `undefined`). */
  datatype LookupCall = NoLookup | LookedUp(osuid: Option<Json>)

  datatype MeOutcome = MeOutcome(reply: Reply, call: LookupCall)

  const InvalidSession := Reply(400, ErrorBody("Invalid session"), DeleteSession)

  /** `GET`: `cookie` is the cookie's value, `parse` stands for
      `JSON.parse` (None = it throws) and `getUserByOsuId` for the store
      lookup. No usable cookie is 401 and leaves the cookie alone; a cookie
      that does not parse, parses to null, or whose lookup throws is 400;
      a lookup that finds nothing is 404; both clear the cookie. The lookup
      key is the parsed `osuid` and the reply is the stored record. */
  function MeGet(cookie: Option<string>, parse: string -> Option<Json>, getUserByOsuId: Option<Json> -> Lookup): (out: MeOutcome)
    ensures !Holds(cookie, "") ==> out == MeOutcome(ErrorReply(401, "Not authenticated"), NoLookup)
    ensures Holds(cookie, "") && (parse(cookie.value).None? || parse(cookie.value) == Some(JNull)) ==>
      out == MeOutcome(InvalidSession, NoLookup)
    ensures out.call.LookedUp? <==> Holds(cookie, "") && parse(cookie.value).Some? && !parse(cookie.value).value.JNull?
    ensures out.call.LookedUp? ==>
      && out.call.osuid == Prop(parse(cookie.value).value, "osuid")
      && match getUserByOsuId(out.call.osuid)
         case Found(record) => out.reply == Reply(200, JObj(record), Keep)
         case NotFound => out.reply == Reply(404, ErrorBody("User not found in database"), DeleteSession)
         case LookupFailed(_) => out.reply == InvalidSession
    ensures out.reply.cookie.DeleteSession? <==> Holds(cookie, "") && out.reply.status != 200
    ensures !out.reply.cookie.SetSession?
  {
    if !Holds(cookie, "") then MeOutcome(ErrorReply(401, "Not authenticated"), NoLookup)
    else
      match parse(cookie.value)
      case None => MeOutcome(InvalidSession, NoLookup)
      case Some(userData) =>
        if userData.JNull? then MeOutcome(InvalidSession, NoLookup)
        else
          var key := Prop(userData, "osuid");
          match getUserByOsuId(key)
          case Found(record) => MeOutcome(Reply(200, JObj(record), Keep), LookedUp(key))
          case NotFound => MeOutcome(Reply(404, ErrorBody("User not found in database"), DeleteSession), LookedUp(key))
          case LookupFailed(_) => MeOutcome(InvalidSession, LookedUp(key))
  }

  /** `DELETE`: always `{success: true}`, clearing the cookie. */
  function MeDelete(): (r: Reply)
    ensures r.status == 200 && r.cookie.DeleteSession?
    ensures r.body.JObj? && r.body.fields == map["success" := JBool(true)]
  {
    Reply(200, JObj(map["success" := JBool(true)]), DeleteSession)
  }

  /** Only the cookie's `osuid` matters: two session objects that agree on
      it get the same reply. */
  lemma OnlyOsuidMatters(c1: string, c2: string, parse: string -> Option<Json>, getUserByOsuId: Option<Json> -> Lookup)
    requires c1 != "" && c2 != ""
    requires parse(c1).Some? && parse(c1).value.JObj? && parse(c2).Some? && parse(c2).value.JObj?
    requires Prop(parse(c1).value, "osuid") == Prop(parse(c2).value, "osuid")
    ensures MeGet(Some(c1), parse, getUserByOsuId) == MeGet(Some(c2), parse, getUserByOsuId)
  {
  }

  /** After a sign-in, `GET` looks up the signed-in osu! id and answers
      with its stored record, provided `JSON.parse` reads back what
      `JSON.stringify` wrote. */
  lemma SignInThenMe(s: OAuthCallback.UserSession, attributes: CookieAttributes, jar: Option<string>,
                     stringify: Json -> string, parse: string -> Option<Json>, getUserByOsuId: Option<Json> -> Lookup)
    requires stringify(OAuthCallback.SessionJson(s)) != ""
    requires parse(stringify(OAuthCallback.SessionJson(s))) == Some(OAuthCallback.SessionJson(s))
    ensures var out := MeGet(ApplyCookie(jar, SetSession(OAuthCallback.SessionJson(s), attributes), stringify), parse, getUserByOsuId);
      && out.call == LookedUp(Some(JNum(s.osuid as real)))
      && (getUserByOsuId(Some(JNum(s.osuid as real))).Found? ==>
            out.reply == Reply(200, JObj(getUserByOsuId(Some(JNum(s.osuid as real))).record), Keep))
  {
  }

  /** After signing out, `GET` answers 401 without a lookup. */
  lemma SignOutThenMe(jar: Option<string>, stringify: Json -> string, parse: string -> Option<Json>,
                      getUserByOsuId: Option<Json> -> Lookup)
    ensures MeGet(ApplyCookie(jar, MeDelete().cookie, stringify), parse, getUserByOsuId)
         == MeOutcome(ErrorReply(401, "Not authenticated"), NoLookup)
  {
  }

  /** A stale or broken cookie is cleared by the first `GET`, so the next
      one answers 401 without a lookup. */
  lemma StaleCookieClearedOnce(jar: Option<string>, stringify: Json -> string, parse: string -> Option<Json>,
                               getUserByOsuId: Option<Json> -> Lookup)
    requires MeGet(jar, parse, getUserByOsuId).reply.status != 200
    ensures var first := MeGet(jar, parse, getUserByOsuId);
      MeGet(ApplyCookie(jar, first.reply.cookie, stringify), parse, getUserByOsuId)
        == MeOutcome(ErrorReply(401, "Not authenticated"), NoLookup)
  {
  }
}
