# osu! tournament backend — verified model

This project models the core of the backend of an osu! tournament site, a
Next.js application. The modelled parts are:

- **The osu! OAuth client** (`app/lib/osuAuth.ts`). This covers:
  - the credentials read from the environment;
  - the authorize URL;
  - the authorization-code token exchange and the client-credentials token request;
  - the process-wide client-token cache, with its 60-second safety margin;
  - the fetch of the signed-in user's profile.
- **The OAuth callback** (`app/api/auth/callback/osu/route.ts`). It runs three steps strictly in order: token exchange, profile fetch, `CreateUser`. It then redirects to `/debug`, either with an error or with the sign-in details and the `user_session` cookie.
- **The user routes**:
  - `/api/user/me`: `GET` resolves the session cookie; `DELETE` signs out;
  - `/api/user/search`: lookup by osu! id through `parseInt`, or by username;
  - `/api/user/update`: `osuid` plus the rest of the body.
- **The tournament-config routes**:
  - the `PUT` shared by `set-config`, `config/routes.ts` and the debug route: required-field check, then an upsert at id 1;
  - the `GET` of `config/routes.ts`;
  - the get-or-create of `INIT` and `init-database`;
  - the get-or-create `GET` of the debug route.

  They run over a model of the Prisma `tournamentConfig` table:
  - rows keyed by `id`;
  - an auto-increment sequence;
  - a body `id` that is honoured;
  - unique violations;
  - a missing record on update;
  - an unreachable database.
- **The osu! API mappers** (`osuUserApi.ts`, `osuBeatmapApi.ts`): the `||` fallback chains from the provider's records to the shapes the site uses.
- **`useEnumOptions`** (`enum-labels.ts`): value/label pairs for the Season and Category enums.
- **Two pieces of the debug registration card** (`RegisterUserCard.tsx`):
  - the change-only patch of `handleUpdateProfile`;
  - the reading of the callback's query string.

## How the model is built

- JavaScript values are modelled explicitly:
  - `null`/`undefined` is `None`;
  - truthiness is `Js.Truthy` and `Js.Holds`;
  - `a || b` is `Js.Or`, `Js.OrNull` and `Js.OrJson`;
  - property reads are `Js.Prop`, where a read on `null` throws;
  - `parseInt` is `Js.ParseInt`, which reads a leading integer after white space;
  - `String(n)` is `Js.Decimal`.
- Every upstream HTTP call, the Prisma user lookups, `JSON.parse`/`JSON.stringify` and the clock are parameters of the operations:
  - an upstream call is an oracle `Request -> Response<T>`;
  - the clock is the number `now`.
- Each operation returns the requests it sent, or the calls it made, so "nothing was sent" and "in this order" are part of the contracts.
- State the code mutates is a class:
  - `OsuAuth.ClientTokenCache` holds the module-level `clientToken` variable;
  - `ConfigStore.ConfigTable` holds the table.
- Each method of those classes is proved against a pure function of the old state (`ValidClientToken`, `Create`, `Update`, `Upsert`, `Put`, `GetOrCreate`). The properties are proved as lemmas about those functions.
- The same holds for the loops:
  - the required-field `for` loop, `ConfigRoutes.CheckRequired`;
  - the seven-`if` patch builder, `RegisterUserCard.BuildPatch`;
  - the four `searchParams.set` calls, `OAuthCallback.BuildSuccessQuery`.

Three behaviours of the code worth knowing:
- `INIT` and `init-database` create without an explicit id, so the row lands on the next auto-increment value, not necessarily 1.
- A `PUT` body's own `id` overrides the 1 of `{id: 1, ...data}`.
- `CreateUser` in `app/lib/UserOperation.ts` is an empty stub, so no sign-in can currently succeed (`OAuthCallback.StubNeverSignsIn`).

## Model

| member | source | states |
|---|---|---|
| Js.ParseIntDecimal | app/api/user/search/route.ts:19 | `parseInt` of the decimal text of any integer gives back that integer |
| Http.SetThenGet | app/api/auth/callback/osu/route.ts:50-53 | after `searchParams.set(name, v)`, `get(name)` is `v` and every other name reads as before |
| Http.SetAbsentAppends | app/api/auth/callback/osu/route.ts:50-53 | setting a name not yet present appends it at the end |
| Http.QueryGetFirst | app/debug/components/RegisterUserCard.tsx:90-93 | `URLSearchParams.get` returns the value of the first entry with the name |
| Http.QueryGetAbsent | app/debug/components/RegisterUserCard.tsx:90-93 | `get` of a name no entry carries is null |
| Http.SearchParams.Set | app/api/auth/callback/osu/route.ts:50-53 | `set` replaces the first entry of that name in place and removes later ones, or appends (stated as the new entries) |
| Http.ApplyCookie | app/api/auth/callback/osu/route.ts:65-71 | the browser side of the cookie the server sets at these lines: the jar is kept, cleared, or holds the stringified value; its meaning is used by `UserMe.SignInThenMe`, `UserMe.SignOutThenMe` and `UserMe.StaleCookieClearedOnce` |
| OsuTypes.MapCover | app/lib/osuUserApi.ts:64-68 | `cover` is present exactly when sent; `url` is the provider's or ''; an empty `custom_url` or `id` becomes null |
| OsuAuth.LoadCredentials | app/lib/osuAuth.ts:1-3 | unset client id and secret read as ''; an unset or empty redirect URI falls back to the localhost callback |
| OsuAuth.GetOsuAuthUrl | app/lib/osuAuth.ts:5-18 | throws exactly when a credential is empty; otherwise the authorize endpoint with client_id, redirect_uri, response_type=code and scope='public identify' |
| OsuAuth.AuthUrlDefaultRedirect | app/lib/osuAuth.ts:3-17 | with the redirect variable unset, the authorize URL sends the user back to the localhost callback |
| OsuAuth.GetOsuToken | app/lib/osuAuth.ts:20-59 | exactly one POST with the five form fields; the body is returned unchanged; a non-2xx status throws with the status and the body text; a bad body throws the parse message |
| OsuAuth.GetOsuClientToken | app/lib/osuAuth.ts:61-100 | sends nothing and throws without credentials; otherwise one client-credentials POST whose non-2xx status throws with the status and the text, and whose unparsable body or network failure throws that reason |
| OsuAuth.ReuseBoundary | app/lib/osuAuth.ts:108 | the 60-second margin is strict: an expiry 59 or 60 seconds away is refreshed, 61 is reused |
| OsuAuth.ValidClientToken | app/lib/osuAuth.ts:102-121 | a reusable cache returns its token, sending nothing and changing nothing; otherwise a success caches the token as expiring `expires_in` after `now`; a failure propagates and leaves the cache untouched |
| OsuAuth.ClientTokenCache.constructor | app/lib/osuAuth.ts:102 | the cache starts empty |
| OsuAuth.ClientTokenCache.GetValidClientToken | app/lib/osuAuth.ts:104-121 | the method returns, sends and caches what `ValidClientToken` of the old cache says |
| OsuAuth.ClientTokenCache.WithClientToken | app/lib/osuBeatmapApi.ts:27-35 | first the client token, then the single request built from it; a token failure propagates and nothing else is sent |
| OsuAuth.RefreshThenReuse | app/lib/osuAuth.ts:104-121 | two calls on a fresh cache: the first sends one request, the second sends none and returns the same token while that token is still reusable |
| OsuAuth.MapMyInfo | app/lib/osuAuth.ts:152-168 | identity fields copied; `cover` mapped; `statistics` present exactly when sent, copied raw with `country` = `country_code` or '' |
| OsuAuth.GetMyOsuInfo | app/lib/osuAuth.ts:123-169 | one bearer GET to /api/v2/me; a non-2xx status throws 'Failed to get user info'; an unparsable body or a network failure throws its reason; a body is mapped |
| OsuUserApi.MapUser | app/lib/osuUserApi.ts:59-90 | `statistics` always present; each number is the provider's value or 0; ranks are null when missing or 0; `country` = `country_code` or '' |
| OsuUserApi.DecodeUser | app/lib/osuUserApi.ts:50-57 | 404 gives '玩家不存在'; another error status gives an error naming the status; a body gives the mapped user |
| OsuUserApi.GetUserData | app/lib/osuUserApi.ts:38-95 | the client token, then one GET with that bearer token, decoded; the cache is as `ValidClientToken` leaves it |
| OsuBeatmapApi.MapSetFields | app/lib/osuBeatmapApi.ts:48-63 | set fields are strings or ''; unicode title and artist fall back to the plain ones; the cover falls back to the card image |
| OsuBeatmapApi.MapBeatmap | app/lib/osuBeatmapApi.ts:45-64 | ids are copied; every number is the value or 0 (`star_rating` from `difficulty_rating`, `od` from `accuracy`, `hp` from `drain`); the url defaults to the beatmap page |
| OsuBeatmapApi.DecodeBeatmap | app/lib/osuBeatmapApi.ts:36-64 | 404 gives 'Beatmap不存在'; another error status names the status; a body is mapped with its embedded set's fields |
| OsuBeatmapApi.MapBeatmapset | app/lib/osuBeatmapApi.ts:94-113 | one entry per listed beatmap, in order, each with the set's fields; `[]` when `beatmaps` is missing |
| OsuBeatmapApi.SetEntriesShareSetFields | app/lib/osuBeatmapApi.ts:97-112 | all entries of a set share title, artist, creator and cover, and keep their own beatmap's id |
| OsuBeatmapApi.DecodeBeatmapset | app/lib/osuBeatmapApi.ts:85-113 | 404 gives 'Beatmapset不存在'; another error status names the status; a body is mapped entry by entry |
| OsuBeatmapApi.GetBeatmapInfo | app/lib/osuBeatmapApi.ts:25-69 | the client token, then one GET to /beatmaps/{id} (Content-Type, then Authorization), decoded |
| OsuBeatmapApi.GetBeatmapsetInfo | app/lib/osuBeatmapApi.ts:72-118 | the client token, then one GET to /beatmapsets/{id}, decoded |
| OAuthCallback.CreateUserInputOf | app/api/auth/callback/osu/route.ts:36-45 | identity copied; `cover_url` is the cover's url; `pp` is 0 when missing; each rank is null when missing or 0 and never 0 |
| OAuthCallback.SignIn | app/api/auth/callback/osu/route.ts:26-47 | token exchange, then the profile fetch with that access token, then `CreateUser` with the mapped profile; the first failure stops the sequence; a `CreateUser` yielding nothing fails reading `username` |
| OAuthCallback.SessionJson | app/api/auth/callback/osu/route.ts:56-62 | the cookie holds exactly id, osuid, username, country_code, and avatar_url or '' |
| OAuthCallback.SessionAttributes | app/api/auth/callback/osu/route.ts:65-71 | httpOnly and secure exactly in production; lax, seven days, path '/' |
| OAuthCallback.Callback | app/api/auth/callback/osu/route.ts:5-80 | an `error` parameter or a missing code redirects at once with nothing sent; a failed step gives 'Failed to process OAuth: ' plus its message and no cookie; success redirects with the session's details and sets the cookie |
| OAuthCallback.BuildSuccessQuery | app/api/auth/callback/osu/route.ts:49-53 | four `set` calls on a fresh `searchParams` give exactly success, username, osuid and userId, in that order |
| OAuthCallback.Get | app/api/auth/callback/osu/route.ts:5-80 | the handler's steps produce exactly the `Callback` outcome |
| OAuthCallback.SuccessQueryReads | app/api/auth/callback/osu/route.ts:50-53 | the success query reads back 'true', the username, the osuid and the row id; the osuid text parses back to the osuid |
| OAuthCallback.CookieOnlyAfterCreate | app/api/auth/callback/osu/route.ts:36-73 | the session cookie is set if and only if all three steps ran and `CreateUser` produced a user |
| OAuthCallback.StubNeverSignsIn | app/lib/UserOperation.ts:26-28 | with `CreateUser` as the empty stub, every callback ends in an error redirect without a cookie |
| UserMe.MeGet | app/api/user/me/route.ts:4-53 | no usable cookie gives 401 with the cookie kept; an unparsable or null cookie, or a lookup that throws, gives 400; not found gives 404; both clear the cookie; the lookup key is the cookie's `osuid` |
| UserMe.MeDelete | app/api/user/me/route.ts:63-68 | always `{success: true}`, and clears the cookie |
| UserMe.OnlyOsuidMatters | app/api/user/me/route.ts:24-28 | two session cookies with the same `osuid` get the same reply |
| UserMe.SignInThenMe | app/api/user/me/route.ts:23-42 | after a sign-in cookie, `GET` looks up that osu! id and answers with its record |
| UserMe.SignOutThenMe | app/api/user/me/route.ts:15-21 | after `DELETE`, `GET` answers 401 without a lookup |
| UserMe.StaleCookieClearedOnce | app/api/user/me/route.ts:30-53 | a non-200 `GET` leaves no session behind, so the next `GET` is 401 without a lookup |
| UserSearch.LookupReply | app/api/user/search/route.ts:36-49 | found gives 200 with the record; not found gives 404; a throw gives 500 |
| UserSearch.Search | app/api/user/search/route.ts:4-43 | missing parameters give 400 with no lookup; osuid looks up `parseInt(value)` (400 on NaN); username looks up the raw value; another type gives 400; no lookup if and only if 400 |
| UserSearch.SearchByDecimalOsuid | app/api/user/search/route.ts:18-26 | searching by an id's decimal text looks up exactly that id |
| UserSearch.SearchIgnoresTrailingText | app/api/user/search/route.ts:19-25 | '123abc' looks up 123; 'abc' is 400 'Invalid osuid' |
| UserUpdate.Rest | app/api/user/update/route.ts:7 | the rest object is every own field except `osuid`, with the same values |
| UserUpdate.Post | app/api/user/update/route.ts:4-23 | an unparsable or null body gives 500; a falsy `osuid` gives 400 with no call; otherwise one `updateProfile(osuid, rest)` call whose result is the reply (500 on throw) |
| UserUpdate.CallReassemblesBody | app/api/user/update/route.ts:7-17 | the id and the update together are the whole body, and the update has no `osuid` |
| ConfigStore.Find | app/api/config/routes.ts:9-11 | `findUnique` fails exactly when the database is unreachable; else it finds the row exactly when the key is stored |
| ConfigStore.Create | app/api/admin/init-database/route.ts:12-23 | the key is the data's id, or the next auto-increment value; a taken key fails and writes nothing; success stores the row with its id and moves the auto-increment counter past that id when it was at or beyond the counter |
| ConfigStore.Update | app/api/admin/set-config/route.ts:33 | a missing row fails; the row's columns are overwritten by the data's; an id in the data re-keys the row |
| ConfigStore.Upsert | app/api/admin/set-config/route.ts:31-38 | update when the row exists, create otherwise, with every call failing while the database is unreachable; what it writes is used by `ConfigRoutes.PutWritesRowOne` and `ConfigRoutes.PutKeepsValid` |
| ConfigStore.CreateKeepsValid | app/api/admin/init-database/route.ts:12-23 | a create keeps every row stored under its own id |
| ConfigStore.UpdateKeepsValid | app/api/admin/set-config/route.ts:31-38 | an update keeps every row stored under its own id, also when it moves the row |
| ConfigStore.CreateThenFind | app/api/config/routes.ts:9-11 | a created row is found afterwards under the id it reports |
| ConfigStore.ConfigTable.constructor | app/lib/PrismaClient.ts:15-17 | the client's table starts empty with the sequence at 1 (its contents before the first request are not in the repository) |
| ConfigStore.ConfigTable.FindUnique | app/api/config/routes.ts:9-11 | returns `Find` of the current state and changes nothing |
| ConfigStore.ConfigTable.CreateRow | app/debug/api/tournament-config/route.ts:12-22 | result and new state are those of `Create` on the old state |
| ConfigStore.ConfigTable.UpdateRow | app/api/admin/set-config/route.ts:33 | result and new state are those of `Update` on the old state |
| ConfigStore.ConfigTable.UpsertRow | app/api/admin/set-config/route.ts:31-38 | looks the row up, then updates or creates; result and new state are those of `Upsert` |
| ConfigRoutes.FirstMissing | app/api/admin/set-config/route.ts:21-28 | the index of the first required field that reads as `undefined`; every earlier field is present |
| ConfigRoutes.MissingFieldMeaning | app/api/admin/set-config/route.ts:12-28 | no field reported if and only if all six are present; a reported field is missing and all before it are present |
| ConfigRoutes.NullFieldsPass | app/api/admin/set-config/route.ts:22 | only `undefined` is rejected: six null fields pass the check |
| ConfigRoutes.CheckRequired | app/api/admin/set-config/route.ts:21-28 | the `for` loop returns the first missing required field, or none |
| ConfigRoutes.Put | app/api/config/routes.ts:23-64 | a body that does not parse or is null is 500 '更新配置失败' with nothing written; 400 exactly when a parsed body lacks a required field; a complete body on an unreachable database is that same 500; every reply other than 200 and 400 is that 500; a non-200 reply writes nothing and every reply keeps the cookie |
| ConfigRoutes.PutRejectsIncomplete | app/api/admin/set-config/route.ts:21-28 | a body lacking a field gives 400 naming the first missing one, and the table is unchanged |
| ConfigRoutes.PutMergesIntoRowOne | app/api/admin/set-config/route.ts:31-33 | with a row 1, a complete id-less body is merged into row 1 and that merged row is the reply; nothing else changes |
| ConfigRoutes.PutCreatesRowOne | app/api/admin/set-config/route.ts:31-37 | without a row 1, a complete id-less body is stored as row 1 with id 1, whatever the counter, and is the reply |
| ConfigRoutes.PutWritesRowOne | app/api/admin/set-config/route.ts:31-40 | a complete body without an id is merged into row 1, or stored as row 1; the other rows are unchanged; the reply is the stored row |
| ConfigRoutes.PutHonoursBodyId | app/api/admin/set-config/route.ts:31-40 | without a row 1, a complete body carrying any free integral id `k` is stored as row `k`, exactly the body, is the reply, and row 1 stays missing unless `k` is 1 |
| ConfigRoutes.PutMovesRowOne | app/api/admin/set-config/route.ts:31-40 | with a row 1, a complete body carrying a free integral id `k` moves row 1, merged with the body, to `k`, and row 1 is gone |
| ConfigRoutes.BodyIdThenInit | app/api/config/routes.ts:67-92 | on a fresh table, a `PUT` whose body carries id 5 stores row 5, and a following `INIT` creates row 6, not row 1 |
| ConfigRoutes.PutKeepsValid | app/debug/api/tournament-config/route.ts:59-67 | every `PUT` keeps each row stored under its own id |
| ConfigRoutes.PutConfig | app/api/admin/set-config/route.ts:4-48 | the handler's reply and new table are those of `Put` on the old table |
| ConfigRoutes.Get | app/api/config/routes.ts:7-20 | 200 exactly when reachable, with row 1 or null; 500 '获取配置失败' otherwise |
| ConfigRoutes.GetConfig | app/api/config/routes.ts:7-20 | the handler answers `Get` of the table and writes nothing |
| ConfigRoutes.GetOrCreate | app/api/admin/init-database/route.ts:7-32 | an existing row 1 is returned with nothing written; otherwise the defaults are created and returned; an unreachable database or a failed create is 500 with the route's message and nothing written, and every non-200 reply is that 500 |
| ConfigRoutes.GetOrCreateConfig | app/debug/api/tournament-config/route.ts:5-33 | the handler's reply and new table are those of `GetOrCreate` |
| ConfigRoutes.InitConfig | app/api/config/routes.ts:67-92 | `INIT`: get-or-create with the 'Astar Cup' defaults and message '初始化配置失败' |
| ConfigRoutes.DebugGetConfig | app/debug/api/tournament-config/route.ts:5-33 | the debug `GET`: get-or-create with the 'AstarCup' defaults at id 1 and message '获取配置失败' |
| ConfigRoutes.InitKeepsExisting | app/api/config/routes.ts:69-84 | with row 1 present, `INIT` returns it and writes nothing |
| ConfigRoutes.InitCreatesDefaults | app/api/admin/init-database/route.ts:12-24 | without row 1, `INIT` stores the 'Astar Cup' defaults under the next auto-increment id |
| ConfigRoutes.InitAwayFromRowOne | app/api/config/routes.ts:67-92 | when the sequence is not at 1, `INIT` leaves row 1 missing: `GET` still answers null, and a second `INIT` adds another row |
| ConfigRoutes.InitTwiceOnFreshTable | app/api/admin/init-database/route.ts:7-24 | on a fresh table the first `INIT` creates row 1; the second writes nothing and answers the same row |
| ConfigRoutes.DebugGetIdempotent | app/debug/api/tournament-config/route.ts:7-25 | after a 200, a second debug `GET` writes nothing and answers the same row |
| EnumLabels.LabelOf | app/lib/enum-labels.ts:32 | the table's label when it has a non-empty one, otherwise the value itself |
| EnumLabels.EnumOptions | app/lib/enum-labels.ts:24-35 | one option per value, in order, carrying that value and its label |
| EnumLabels.OptionsKeepValues | app/lib/enum-labels.ts:30-33 | the options' values are exactly the input values |
| EnumLabels.OptionsOfConcat | app/lib/enum-labels.ts:30-33 | labelling is element-wise, so it distributes over concatenation |
| EnumLabels.LabelsNonEmpty | app/lib/enum-labels.ts:32 | a non-empty value never gets an empty label |
| EnumLabels.SeasonAndCategoryOptions | app/lib/enum-labels.ts:9-22 | the Season and Category options pair each member with its table label |
| EnumLabels.UnknownValueLabelsItself | app/lib/enum-labels.ts:32 | a value the table does not know is labelled with itself |
| RegisterUserCard.ApprovedAsWrittenMissesTrue | app/debug/components/RegisterUserCard.tsx:67 | `approved === 1` is false for every Boolean column value |
| RegisterUserCard.Approved | app/debug/components/RegisterUserCard.tsx:67 | a true Boolean column (or the number 1) reads as approved; false or missing reads as not approved |
| RegisterUserCard.UserInfoOf | app/debug/components/RegisterUserCard.tsx:55-69 | the card's user info is the record's osuid and profile fields and the corrected approval flag |
| RegisterUserCard.ApprovedReadsBoolean | app/debug/components/RegisterUserCard.tsx:242 | the approval shown is the stored Boolean |
| RegisterUserCard.InitialForm | app/debug/components/RegisterUserCard.tsx:71-79 | the form copies the profile, with a falsy avatar or cover url replaced by '' |
| RegisterUserCard.PatchMeaning | app/debug/components/RegisterUserCard.tsx:197-203 | a field is in the patch exactly when the form's value is not strictly equal to the current one, and then carries the form's value |
| RegisterUserCard.BuildPatch | app/debug/components/RegisterUserCard.tsx:186-203 | the seven conditional assignments build exactly `Patch`, the field-by-field specification |
| RegisterUserCard.NameRoundTrip | app/debug/components/RegisterUserCard.tsx:186-203 | each of the seven fields has its own JSON property name, which leads back to it |
| RegisterUserCard.Defined | app/debug/components/RegisterUserCard.tsx:217-220 | `JSON.stringify` keeps exactly the defined entries, with their values |
| RegisterUserCard.HandleUpdateProfile | app/debug/components/RegisterUserCard.tsx:176-221 | with no user nothing is sent; an empty patch sends nothing; otherwise one body of osuid plus the patch |
| RegisterUserCard.UneditedFormPatch | app/debug/components/RegisterUserCard.tsx:71-79 | an unedited form still patches avatar_url or cover_url to '' exactly when the fetched value was falsy but not '' |
| RegisterUserCard.RestOfRequestBody | app/api/user/update/route.ts:7 | the update route splits the card's body back into the osu! id and exactly the patch's defined fields |
| RegisterUserCard.PatchReachesUpdateProfile | app/debug/components/RegisterUserCard.tsx:217-220 | the card's request makes the update route call `updateProfile` with the user's osuid and the patch's defined fields |
| RegisterUserCard.NoticeOf | app/debug/components/RegisterUserCard.tsx:89-107 | success banner exactly when success='true' with a non-empty username and osuid; an error banner exactly for a non-empty, decodable `error` |
| RegisterUserCard.SuccessQueryHasNoError | app/debug/components/RegisterUserCard.tsx:93-103 | the success redirect's query carries no `error` entry |
| RegisterUserCard.SignInShowsSuccess | app/debug/components/RegisterUserCard.tsx:95-96 | landing from a successful callback shows the success banner naming the user and osu! id, and no error |
| RegisterUserCard.ErrorRedirectShowsError | app/debug/components/RegisterUserCard.tsx:102-103 | landing from an error redirect shows no success banner and an error banner holding the redirect's `error` value passed through `decode` (the card's `decodeURIComponent`) |

## Left out

- Network and fetch mechanics are not modelled. Every upstream call is a `Request -> Response<T>` parameter. The response is delivered, an error status with its text, a body that is not JSON, or a network failure.
- JSON and URL encoding are not modelled. `JSON.parse`, `JSON.stringify` and `decodeURIComponent` are parameters; `encodeURIComponent` on redirect queries is not modelled, so queries are kept decoded.
- Logging (`console.*`) is not modelled. It has no effect on results.
- Concurrency is not modelled. Each handler runs to completion, so concurrent requests racing on the token cache or the config row are not modelled.
- JavaScript numbers are modelled as mathematical reals or integers. NaN, -0 and the loss of precision above 2^53 (also in `parseInt`) are not modelled.
- A JSON body or cookie that is not an object (a number, a string or an array) is modelled as reading `undefined` for every property. Properties inherited through the prototype chain are not modelled, for example `labels['constructor']` in `useEnumOptions` or `data['toString']` in the required-field check.
- Object-valued fields are compared by value in `RegisterUserCard.Patch`. JavaScript's `!==` compares objects by reference, but every patched field is a string or a number.
- OsuAuth.GetOsuToken: after a failed `response.json()` the code calls `response.text()` on a body already consumed, which throws again. The model keeps the 'Failed to parse token response' message, so the second throw is not modelled.
- The outer 'Unexpected error' catch of the OAuth callback is not modelled: in the model no step before the inner `try` throws. The same holds for the outer 500 catch of `/api/user/me` `GET` and of `DELETE`.
- The Prisma schema is not part of this model: column types, column defaults, the columns a create adds, and validation of unknown fields. The auto-increment counter follows InnoDB on creates, the engine behind the MariaDB adapter of app/lib/PrismaClient.ts: it moves past every created id at or beyond it. Two simplifications: a failed create leaves the counter where it was, and an update that moves a row to a larger id does not move the counter.
- The three `PUT` handlers are textually identical and are modelled once, by `ConfigRoutes.Put` / `ConfigRoutes.PutConfig`. They are in `app/api/admin/set-config/route.ts`, `app/api/config/routes.ts` and `app/debug/api/tournament-config/route.ts`. `init-database`'s `GET` and `INIT` of `config/routes.ts` are identical too, and are both `ConfigRoutes.InitConfig`.
- ConfigRoutes.Put: its own contract states the error replies, not what a successful write stores. That is stated by `PutWritesRowOne`, `PutHonoursBodyId`, `PutMovesRowOne`, `PutRejectsIncomplete` and `PutKeepsValid`. A body id that is not an integer, or one that collides with another row, is only covered by the general 500 clause.
- `getUserByOsuId`, `getUserByUsername` and `updateProfile` are not defined in `app/lib/UserOperation.ts`. They appear as parameters that find a record, find none or throw.
- These are not part of this model: the `getAuthUrl` route, `app/api/config/route.ts`, `app/lib/FetcherApi.ts`, `app/lib/SettingServer.ts`, `app/lib/PrismaClient.ts`, `TournamentConfigCard.tsx`, `app/debug/page.tsx`, and the rendering, loading and state-setting of `RegisterUserCard.tsx`.
- OsuBeatmapApi.MapBeatmap: provider records are typed with optional fields, so a `null` and a missing key are the same `None`. A provider `id` of null therefore gives a default url ending in `undefined`, where `${data.id}` gives `null`. For the same reason the mapped replies of `osuUserApi.ts`, `osuBeatmapApi.ts` and `getMyOsuInfo` do not tell a copied null apart from a copied `undefined`, which `JSON.stringify` drops.
- RegisterUserCard.HandleUpdateProfile is modelled up to the request it sends. Its handling of the response is not modelled: the error message and the refreshed user info.
- The order of `Object.values(Season)` and `Object.values(Category)` is taken as the table order, S1 S2 and QUA RO16 QF SF F GF. The generated Prisma enums are not part of this model.

## Findings

| source | as written | input that shows it | evidently intended | confidence | as-written member | corrected member |
|---|---|---|---|---|---|---|
| app/debug/components/RegisterUserCard.tsx:67 | `approved: user.approved === 1` (also at lines 149 and 242) | a user record whose Boolean `approved` column is `true` is shown as not approved | a true `approved` column reads as approved | medium: the card's own `UserInfo` declares `approved: boolean` (app/debug/components/RegisterUserCard.tsx:19) and renders it by truthiness (line 375), while `UserSession` declares `approved: number` (app/lib/UserOperation.ts:15); the column type is not declared in the repository, and under the number type the code is right; not executed | RegisterUserCard.ApprovedAsWritten, shown wrong by RegisterUserCard.ApprovedAsWrittenMissesTrue | RegisterUserCard.Approved, proved by RegisterUserCard.ApprovedReadsBoolean |
