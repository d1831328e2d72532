/** The two pieces of logic in the debug registration card: the change-only
    profile patch `handleUpdateProfile` sends to `/api/user/update`, and the
    reading of the OAuth callback's query when the card loads. */
module RegisterUserCard {
  import opened Js
  import opened Http
  import opened UserOperation
  import OAuthCallback
  import UserUpdate

  /** The seven editable profile fields (None = `undefined`). */
  datatype Profile = Profile(
    username: Option<Json>,
    avatar_url: Option<Json>,
    cover_url: Option<Json>,
    country_code: Option<Json>,
    pp: Option<Json>,
    global_rank: Option<Json>,
    country_rank: Option<Json>)

  /** The names of the seven fields. */
  datatype ProfileKey = Username | AvatarUrl | CoverUrl | CountryCode | Pp | GlobalRank | CountryRank

  const ProfileKeys: set<ProfileKey> := {Username, AvatarUrl, CoverUrl, CountryCode, Pp, GlobalRank, CountryRank}

  /** The JSON property each field is sent as. */
  function Name(k: ProfileKey): string
  {
    match k
    case Username => "username"
    case AvatarUrl => "avatar_url"
    case CoverUrl => "cover_url"
    case CountryCode => "country_code"
    case Pp => "pp"
    case GlobalRank => "global_rank"
    case CountryRank => "country_rank"
  }

  function Field(p: Profile, k: ProfileKey): Option<Json>
  {
    match k
    case Username => p.username
    case AvatarUrl => p.avatar_url
    case CoverUrl => p.cover_url
    case CountryCode => p.country_code
    case Pp => p.pp
    case GlobalRank => p.global_rank
    case CountryRank => p.country_rank
  }

  /** The card's `userInfo`: the user's osu! id, the profile as last
      fetched, and the approval flag. */
  datatype UserInfo = UserInfo(osuid: Option<Json>, profile: Profile, approved: bool)

  function Get(record: map<string, Json>, key: string): Option<Json>
  {
    if key in record then Some(record[key]) else None
  }

  function ProfileOf(record: map<string, Json>): Profile
  {
    Profile(Get(record, "username"), Get(record, "avatar_url"), Get(record, "cover_url"), Get(record, "country_code"),
            Get(record, "pp"), Get(record, "global_rank"), Get(record, "country_rank"))
  }

  // ---------------------------------------------------------------------
  // The approval flag

  /** `user.approved === 1`, as written. */
  predicate ApprovedAsWritten(v: Option<Json>)
  {
    v == Some(JNum(1.0))
  }

  /** A stored user whose Boolean `approved` column is true is shown as not
      approved by the check as written. */
  lemma ApprovedAsWrittenMissesTrue()
    ensures !ApprovedAsWritten(Some(JBool(true)))
    ensures forall b: bool {:trigger JBool(b)} :: !ApprovedAsWritten(Some(JBool(b)))
  {
  }

  /** The flag as evidently intended: a true Boolean column (or the number
      1 the session type declares) reads as approved. */
  function Approved(v: Option<Json>): (approved: bool)
    ensures v == Some(JBool(true)) ==> approved
    ensures v == Some(JBool(false)) ==> !approved
    ensures ApprovedAsWritten(v) ==> approved
    ensures v.None? ==> !approved
  {
    v == Some(JBool(true)) || v == Some(JNum(1.0))
  }

  /** The `userInfo` built from a fetched user record. */
  function UserInfoOf(record: map<string, Json>): (u: UserInfo)
    ensures u.profile == ProfileOf(record) && u.osuid == Get(record, "osuid")
    ensures u.approved == Approved(Get(record, "approved"))
  {
    UserInfo(Get(record, "osuid"), ProfileOf(record), Approved(Get(record, "approved")))
  }

  /** Approval is read from the Boolean column as stored. */
  lemma ApprovedReadsBoolean(record: map<string, Json>, b: bool)
    requires "approved" in record && record["approved"] == JBool(b)
    ensures UserInfoOf(record).approved == b
  {
  }

  // ---------------------------------------------------------------------
  // The edit form and the patch

  /** The form as filled from a fetched user: `avatar_url` and `cover_url`
      become '' when falsy, the rest is copied. */
  function InitialForm(record: map<string, Json>): (f: Profile)
    ensures var p := ProfileOf(record);
      && f.username == p.username && f.country_code == p.country_code
      && f.pp == p.pp && f.global_rank == p.global_rank && f.country_rank == p.country_rank
      && f.avatar_url == (if Truthy(p.avatar_url) then p.avatar_url else Some(JStr("")))
      && f.cover_url == (if Truthy(p.cover_url) then p.cover_url else Some(JStr("")))
  {
    var p := ProfileOf(record);
    p.(avatar_url := OrJson(p.avatar_url, Some(JStr(""))), cover_url := OrJson(p.cover_url, Some(JStr(""))))
  }

  /** One `if (a !== b) updatePayload[k] = a`. */
  function SetIfChanged(m: map<ProfileKey, Option<Json>>, k: ProfileKey, a: Option<Json>, b: Option<Json>): map<ProfileKey, Option<Json>>
  {
    if a != b then m[k := a] else m
  }

  /** The change-only patch, field by field in the handler's order. */
  function Patch(form: Profile, current: Profile): (p: map<ProfileKey, Option<Json>>)
  {
    var m1 := SetIfChanged(map[], Username, form.username, current.username);
    var m2 := SetIfChanged(m1, AvatarUrl, form.avatar_url, current.avatar_url);
    var m3 := SetIfChanged(m2, CoverUrl, form.cover_url, current.cover_url);
    var m4 := SetIfChanged(m3, CountryCode, form.country_code, current.country_code);
    var m5 := SetIfChanged(m4, Pp, form.pp, current.pp);
    var m6 := SetIfChanged(m5, GlobalRank, form.global_rank, current.global_rank);
    SetIfChanged(m6, CountryRank, form.country_rank, current.country_rank)
  }

  /** What the patch means: a field is in it exactly when the form's value
      is not strictly equal to the current one, and then with the form's
      value (which may be `undefined`). */
  lemma PatchMeaning(form: Profile, current: Profile)
    ensures forall k :: k in Patch(form, current) <==> Field(form, k) != Field(current, k)
    ensures forall k :: k in Patch(form, current) ==> Patch(form, current)[k] == Field(form, k)
  {
  }

  /** `updatePayload`, filled one field after another as the handler does. */
  method BuildPatch(form: Profile, current: Profile) returns (payload: map<ProfileKey, Option<Json>>)
    ensures payload == Patch(form, current)
  {
    payload := map[];
    if form.username != current.username { payload := payload[Username := form.username]; }
    if form.avatar_url != current.avatar_url { payload := payload[AvatarUrl := form.avatar_url]; }
    if form.cover_url != current.cover_url { payload := payload[CoverUrl := form.cover_url]; }
    if form.country_code != current.country_code { payload := payload[CountryCode := form.country_code]; }
    if form.pp != current.pp { payload := payload[Pp := form.pp]; }
    if form.global_rank != current.global_rank { payload := payload[GlobalRank := form.global_rank]; }
    if form.country_rank != current.country_rank { payload := payload[CountryRank := form.country_rank]; }
  }

  /** The field a JSON property names, if any: the inverse of `Name`. */
  function KeyNamed(n: string): (k: Option<ProfileKey>)
    ensures k.Some? ==> Name(k.value) == n
  {
    match n
    case "username" => Some(Username)
    case "avatar_url" => Some(AvatarUrl)
    case "cover_url" => Some(CoverUrl)
    case "country_code" => Some(CountryCode)
    case "pp" => Some(Pp)
    case "global_rank" => Some(GlobalRank)
    case "country_rank" => Some(CountryRank)
    case _ => None
  }

  const Names: set<string> := {"username", "avatar_url", "cover_url", "country_code", "pp", "global_rank", "country_rank"}

  /** Every field is sent under one of the seven names, and its name leads
      back to it, so distinct fields have distinct names. */
  lemma NameRoundTrip()
    ensures forall k :: Name(k) in Names && KeyNamed(Name(k)) == Some(k)
  {
    forall k
      ensures Name(k) in Names && KeyNamed(Name(k)) == Some(k)
    {
      match k
      case Username =>
      case AvatarUrl =>
      case CoverUrl =>
      case CountryCode =>
      case Pp =>
      case GlobalRank =>
      case CountryRank =>
    }
  }

  /** The JSON text's object: `JSON.stringify` drops the `undefined`
      entries and writes each field under its name. */
  function Defined(patch: map<ProfileKey, Option<Json>>): (m: map<string, Json>)
    ensures forall k :: Name(k) in m <==> k in patch && patch[k].Some?
    ensures forall k :: Name(k) in m ==> k in patch && m[Name(k)] == patch[k].value
    ensures forall n :: n in m ==> KeyNamed(n).Some?
  {
    NameRoundTrip();
    map n | n in Names && KeyNamed(n).Some? && KeyNamed(n).value in patch && patch[KeyNamed(n).value].Some?
      :: patch[KeyNamed(n).value].value
  }

  /** `{osuid: userInfo.osuid, ...updatePayload}` as sent. */
  function RequestBody(osuid: Option<Json>, patch: map<ProfileKey, Option<Json>>): map<string, Json>
  {
    (if osuid.Some? then map["osuid" := osuid.value] else map[]) + Defined(patch)
  }

  /** What the handler does: nothing to update, no changes, or one request. */
  datatype UpdateAction = NoUser | NoChanges | Send(body: map<string, Json>)

  /** `handleUpdateProfile`: without a current user it sets
      '没有用户信息可更新' and sends nothing; an empty patch sets
      '没有需要更新的信息' and sends nothing; otherwise it posts the user's
      osu! id and the patch. */
  method HandleUpdateProfile(userInfo: Option<UserInfo>, form: Profile) returns (action: UpdateAction)
    ensures userInfo.None? ==> action == NoUser
    ensures userInfo.Some? && Patch(form, userInfo.value.profile) == map[] ==> action == NoChanges
    ensures userInfo.Some? && Patch(form, userInfo.value.profile) != map[] ==>
      action == Send(RequestBody(userInfo.value.osuid, Patch(form, userInfo.value.profile)))
  {
    if userInfo.None? {
      return NoUser;
    }
    var payload := BuildPatch(form, userInfo.value.profile);
    if |payload| == 0 {
      return NoChanges;
    }
    action := Send(RequestBody(userInfo.value.osuid, payload));
  }

  /** An unedited form still differs where the fetched avatar or cover was
      falsy other than '': those fields, and only those, land in the patch,
      as ''. */
  lemma UneditedFormPatch(record: map<string, Json>)
    ensures var current := ProfileOf(record);
      var p := Patch(InitialForm(record), current);
      && p.Keys == (if !Truthy(current.avatar_url) && current.avatar_url != Some(JStr("")) then {AvatarUrl} else {})
                 + (if !Truthy(current.cover_url) && current.cover_url != Some(JStr("")) then {CoverUrl} else {})
      && forall k :: k in p ==> p[k] == Some(JStr(""))
  {
    var current := ProfileOf(record);
    var form := InitialForm(record);
    assert Truthy(current.avatar_url) ==> Field(form, AvatarUrl) == Field(current, AvatarUrl);
    assert Truthy(current.cover_url) ==> Field(form, CoverUrl) == Field(current, CoverUrl);
  }

  /** The update route splits the card's body back into the osu! id and
      the patch's defined fields. */
  lemma RestOfRequestBody(osuid: Json, patch: map<ProfileKey, Option<Json>>)
    ensures "osuid" in RequestBody(Some(osuid), patch) && RequestBody(Some(osuid), patch)["osuid"] == osuid
    ensures UserUpdate.Rest(RequestBody(Some(osuid), patch)) == Defined(patch)
  {
    var d := Defined(patch);
    assert KeyNamed("osuid").None?;
    assert "osuid" !in d;
    var body := RequestBody(Some(osuid), patch);
    assert body == map["osuid" := osuid] + d;
    assert UserUpdate.Rest(body).Keys == d.Keys;
  }

  /** The card's request is what the update route forwards: with a truthy
      osu! id, `updateProfile` is called with that id and the patch's
      defined fields. */
  lemma PatchReachesUpdateProfile(userInfo: UserInfo, form: Profile,
                                  updateProfile: (Json, map<string, Json>) -> UpdateOutcome)
    requires Truthy(userInfo.osuid)
    ensures var body := RequestBody(userInfo.osuid, Patch(form, userInfo.profile));
      UserUpdate.Post(Some(JObj(body)), updateProfile).call
        == UserUpdate.UpdateProfile(userInfo.osuid.value, Defined(Patch(form, userInfo.profile)))
  {
    var patch := Patch(form, userInfo.profile);
    RestOfRequestBody(userInfo.osuid.value, patch);
    var body := RequestBody(userInfo.osuid, patch);
    assert Prop(JObj(body), "osuid") == userInfo.osuid;
  }

  // ---------------------------------------------------------------------
  // The callback's query, read when the card loads

  /** The banners the card sets from the URL: a success message, an error
      message, or both. */
  datatype Notice = Notice(success: Option<string>, error: Option<string>)

  /** `success === 'true' && username && osuid`. */
  predicate ShowSuccess(query: seq<(string, string)>)
  {
    QueryGet(query, "success") == Some("true") && Holds(QueryGet(query, "username"), "") && Holds(QueryGet(query, "osuid"), "")
  }

  /** The messages set from the query; `decode` stands for
      `decodeURIComponent` (None = it throws, and no error message is set). */
  function NoticeOf(query: seq<(string, string)>, decode: string -> Option<string>): (n: Notice)
    ensures n.success.Some? <==> ShowSuccess(query)
    ensures n.success.Some? ==>
      n.success.value == "用户 " + QueryGet(query, "username").value + " (osuid: " + QueryGet(query, "osuid").value + ") 注册/登录成功！"
    ensures n.error.Some? ==> Holds(QueryGet(query, "error"), "") && decode(QueryGet(query, "error").value) == n.error
    ensures Holds(QueryGet(query, "error"), "") && decode(QueryGet(query, "error").value).Some? ==> n.error.Some?
  {
    var username := QueryGet(query, "username");
    var osuid := QueryGet(query, "osuid");
    var error := QueryGet(query, "error");
    Notice(if ShowSuccess(query) then Some("用户 " + username.value + " (osuid: " + osuid.value + ") 注册/登录成功！") else None,
           if Holds(error, "") then decode(error.value) else None)
  }

  /** The success query carries no `error`. */
  lemma SuccessQueryHasNoError(s: OAuthCallback.UserSession)
    ensures QueryGet(OAuthCallback.SuccessQuery(s), "error").None?
  {
    var q := OAuthCallback.SuccessQuery(s);
    assert q[0].0 == "success" && q[1].0 == "username" && q[2].0 == "osuid" && q[3].0 == "userId";
    QueryGetAbsent(q, "error");
  }

  /** Landing from a successful sign-in with a non-empty username shows the
      success banner naming that user and osu! id, and no error. */
  lemma SignInShowsSuccess(s: OAuthCallback.UserSession, decode: string -> Option<string>)
    requires s.username != ""
    ensures var n := NoticeOf(OAuthCallback.SuccessQuery(s), decode);
      && n.success == Some("用户 " + s.username + " (osuid: " + Decimal(s.osuid) + ") 注册/登录成功！")
      && n.error.None?
  {
    var q := OAuthCallback.SuccessQuery(s);
    OAuthCallback.SuccessQueryReads(s);
    SuccessQueryHasNoError(s);
    assert ShowSuccess(q);
  }

  /** Landing from an error redirect shows its message and no success
      banner. */
  lemma ErrorRedirectShowsError(message: string, decode: string -> Option<string>)
    requires message != "" && decode(message).Some?
    ensures NoticeOf(OAuthCallback.ErrorRedirect(message).query, decode) == Notice(None, decode(message))
  {
    var q := OAuthCallback.ErrorRedirect(message).query;
    QueryGetAbsent(q, "success");
    QueryGetFirst(q, "error", 0);
  }
}
