/** `getUserData`: a player's public osu! profile fetched with the client
    token, mapped into a shape where every statistic has a value. */
module OsuUserApi {
  import opened Js
  import opened Http
  import opened OsuTypes
  import opened OsuAuth

  datatype Level = Level(current: int, progress: int)

  datatype Grades = Grades(ss: int, ssh: int, s: int, sh: int, a: int)

  datatype UserStatistics = UserStatistics(
    pp: real,
    global_rank: Option<int>,
    country_rank: Option<int>,
    country: string,
    ranked_score: int,
    hit_accuracy: real,
    play_count: int,
    play_time: int,
    level: Level,
    grade_counts: Grades)

  datatype OsuUser = OsuUser(
    id: Option<int>,
    username: Option<string>,
    avatar_url: Option<string>,
    country_code: Option<string>,
    cover: Option<Cover>,
    statistics: UserStatistics)

  function ValueOr<T>(x: Option<T>, default: T): T
  {
    if x.Some? then x.value else default
  }

  function MapLevel(l: Option<ProviderLevel>): Level
  {
    match l
    case None => Level(0, 0)
    case Some(pl) => Level(Or(pl.current, 0, 0), Or(pl.progress, 0, 0))
  }

  function MapGrades(g: Option<ProviderGrades>): Grades
  {
    match g
    case None => Grades(0, 0, 0, 0, 0)
    case Some(pg) => Grades(Or(pg.ss, 0, 0), Or(pg.ssh, 0, 0), Or(pg.s, 0, 0), Or(pg.sh, 0, 0), Or(pg.a, 0, 0))
  }

  /** The object `getUserData` builds: identity fields copied, `cover`
      present exactly when sent, and `statistics` always present, each
      number the provider's value or 0 when missing, the ranks null when
      missing or 0, and `country` = `country_code || ''`. */
  function MapUser(d: ProviderUser): (r: OsuUser)
    ensures r.id == d.id && r.username == d.username && r.avatar_url == d.avatar_url && r.country_code == d.country_code
    ensures r.cover == MapCover(d.cover)
    ensures r.statistics.country == ValueOr(d.country_code, "")
    ensures r.statistics.global_rank != Some(0) && r.statistics.country_rank != Some(0)
    ensures d.statistics.None? ==>
      r.statistics == UserStatistics(0.0, None, None, r.statistics.country, 0, 0.0, 0, 0, Level(0, 0), Grades(0, 0, 0, 0, 0))
    ensures d.statistics.Some? ==>
      var s := d.statistics.value;
      && r.statistics.pp == ValueOr(s.pp, 0.0)
      && r.statistics.global_rank == (if s.global_rank == Some(0) then None else s.global_rank)
      && r.statistics.country_rank == (if s.country_rank == Some(0) then None else s.country_rank)
      && r.statistics.ranked_score == ValueOr(s.ranked_score, 0)
      && r.statistics.hit_accuracy == ValueOr(s.hit_accuracy, 0.0)
      && r.statistics.play_count == ValueOr(s.play_count, 0)
      && r.statistics.play_time == ValueOr(s.play_time, 0)
      && r.statistics.level == (if s.level.None? then Level(0, 0)
                                else Level(ValueOr(s.level.value.current, 0), ValueOr(s.level.value.progress, 0)))
      && r.statistics.grade_counts == (if s.grade_counts.None? then Grades(0, 0, 0, 0, 0)
                                       else var g := s.grade_counts.value;
                                            Grades(ValueOr(g.ss, 0), ValueOr(g.ssh, 0), ValueOr(g.s, 0), ValueOr(g.sh, 0), ValueOr(g.a, 0)))
  {
    var country := Or(d.country_code, "", "");
    var stats := match d.statistics
      case None => UserStatistics(0.0, None, None, country, 0, 0.0, 0, 0, Level(0, 0), Grades(0, 0, 0, 0, 0))
      case Some(s) =>
        UserStatistics(Or(s.pp, 0.0, 0.0), OrNull(s.global_rank, 0), OrNull(s.country_rank, 0), country,
                       Or(s.ranked_score, 0, 0), Or(s.hit_accuracy, 0.0, 0.0), Or(s.play_count, 0, 0),
                       Or(s.play_time, 0, 0), MapLevel(s.level), MapGrades(s.grade_counts));
    OsuUser(d.id, d.username, d.avatar_url, d.country_code, MapCover(d.cover), stats)
  }

  function UserRequest(userID: int, token: string): Request
  {
    Request("GET", "https://osu.ppy.sh/api/v2/users/" + Decimal(userID),
            [("Authorization", "Bearer " + token), ("Content-Type", "application/json")], [])
  }

  const PlayerNotFound := "玩家不存在"

  /** The response handling of `getUserData`: 404 is '玩家不存在', any other
      non-2xx status an error naming the status, a body the mapped user. */
  function DecodeUser(resp: Response<ProviderUser>): (r: Result<OsuUser>)
    ensures r.Ok? <==> resp.Delivered?
    ensures r.Ok? ==> r.value == MapUser(resp.body)
    ensures resp.HttpError? && resp.status == 404 ==> r == Err(PlayerNotFound)
    ensures resp.HttpError? && resp.status != 404 ==> r == Err("获取玩家数据失败: " + Decimal(resp.status))
  {
    match resp
    case Delivered(body) => Ok(MapUser(body))
    case HttpError(status, _) => if status == 404 then Err(PlayerNotFound) else Err("获取玩家数据失败: " + Decimal(status))
    case BadJson(reason) => Err(reason)
    case NetworkFailure(reason) => Err(reason)
  }

  /** `getUserData(userID)`: the client token first, then one GET for the
      user carrying that token. */
  method GetUserData(userID: int, cache: ClientTokenCache, c: Credentials, now: real,
                     tokenEndpoint: Request -> Response<ClientTokenBody>, usersEndpoint: Request -> Response<ProviderUser>)
    returns (r: Result<OsuUser>, sent: seq<Request>)
    modifies cache
    ensures var step := ValidClientToken(old(cache.cached), c, now, tokenEndpoint);
      && cache.cached == step.cache
      && (step.result.Err? ==> r == Err(step.result.message) && sent == step.sent)
      && (step.result.Ok? ==>
            sent == step.sent + [UserRequest(userID, step.result.value)]
            && r == DecodeUser(usersEndpoint(UserRequest(userID, step.result.value))))
  {
    r, sent := cache.WithClientToken(c, now, tokenEndpoint, t => UserRequest(userID, t), usersEndpoint, DecodeUser);
  }
}
