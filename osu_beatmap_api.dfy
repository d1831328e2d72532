/** `getBeatmapInfo` and `getBeatmapsetInfo`: beatmap data fetched with the
    client token and mapped into `BeatmapInfo`, with `||` fallback chains. */
module OsuBeatmapApi {
  import opened Js
  import opened Http
  import opened OsuAuth

  datatype ProviderCovers = ProviderCovers(cover: Option<string>, card: Option<string>)

  /** A beatmapset as the API sends it; on its own endpoint it lists its
      beatmaps. */
  datatype ProviderBeatmapset = ProviderBeatmapset(
    title: Option<string>,
    title_unicode: Option<string>,
    artist: Option<string>,
    artist_unicode: Option<string>,
    creator: Option<string>,
    covers: Option<ProviderCovers>,
    beatmaps: Option<seq<ProviderBeatmap>>)

  /** A beatmap (one difficulty) as the API sends it; on its own endpoint it
      embeds its beatmapset. */
  datatype ProviderBeatmap = ProviderBeatmap(
    id: Option<int>,
    beatmapset_id: Option<int>,
    version: Option<string>,
    difficulty_rating: Option<real>,
    bpm: Option<real>,
    total_length: Option<int>,
    max_combo: Option<int>,
    ar: Option<real>,
    cs: Option<real>,
    accuracy: Option<real>,
    drain: Option<real>,
    url: Option<string>,
    beatmapset: Option<ProviderBeatmapset>)

  datatype BeatmapInfo = BeatmapInfo(
    id: Option<int>,
    beatmapset_id: Option<int>,
    title: string,
    title_unicode: string,
    artist: string,
    artist_unicode: string,
    version: string,
    creator: string,
    star_rating: real,
    bpm: real,
    total_length: int,
    max_combo: int,
    ar: real,
    cs: real,
    od: real,
    hp: real,
    url: string,
    cover_url: string)

  /** The fields every difficulty takes from its beatmapset. */
  datatype SetFields = SetFields(title: string, title_unicode: string, artist: string, artist_unicode: string,
                                 creator: string, cover_url: string)

  function Text(x: Option<string>): string
  {
    if x.Some? then x.value else ""
  }

  /** The set-level fields: each string or "", the unicode title and artist
      falling back to the plain ones, the cover image to the card image. */
  function MapSetFields(bset: Option<ProviderBeatmapset>): (r: SetFields)
    ensures bset.None? ==> r == SetFields("", "", "", "", "", "")
    ensures bset.Some? ==>
      var s := bset.value;
      && r.title == Text(s.title) && r.artist == Text(s.artist) && r.creator == Text(s.creator)
      && r.title_unicode == (if Holds(s.title_unicode, "") then s.title_unicode.value else r.title)
      && r.artist_unicode == (if Holds(s.artist_unicode, "") then s.artist_unicode.value else r.artist)
      && r.cover_url == (if s.covers.None? then ""
                         else if Holds(s.covers.value.cover, "") then s.covers.value.cover.value
                         else Text(s.covers.value.card))
  {
    match bset
    case None => SetFields("", "", "", "", "", "")
    case Some(s) =>
      var cover := if s.covers.Some? then s.covers.value.cover else None;
      var card := if s.covers.Some? then s.covers.value.card else None;
      SetFields(Or(s.title, "", ""), Or(s.title_unicode, "", Or(s.title, "", "")),
                Or(s.artist, "", ""), Or(s.artist_unicode, "", Or(s.artist, "", "")),
                Or(s.creator, "", ""), Or(cover, "", Or(card, "", "")))
  }

  /** A template-literal substitution of an id that may be missing. */
  function IdText(id: Option<int>): string
  {
    if id.Some? then Decimal(id.value) else "undefined"
  }

  /** One `BeatmapInfo`: ids copied, set-level fields from `fields`, every
      number the provider's value or 0 (`star_rating` from
      `difficulty_rating`, `od` from `accuracy`, `hp` from `drain`), and the
      url defaulting to the beatmap's page. */
  function MapBeatmap(b: ProviderBeatmap, fields: SetFields): (r: BeatmapInfo)
    ensures r.id == b.id && r.beatmapset_id == b.beatmapset_id
    ensures r.title == fields.title && r.title_unicode == fields.title_unicode && r.artist == fields.artist
    ensures r.artist_unicode == fields.artist_unicode && r.creator == fields.creator && r.cover_url == fields.cover_url
    ensures r.version == Text(b.version)
    ensures r.star_rating == (if b.difficulty_rating.Some? then b.difficulty_rating.value else 0.0)
    ensures r.od == (if b.accuracy.Some? then b.accuracy.value else 0.0)
    ensures r.hp == (if b.drain.Some? then b.drain.value else 0.0)
    ensures r.bpm == (if b.bpm.Some? then b.bpm.value else 0.0)
    ensures r.ar == (if b.ar.Some? then b.ar.value else 0.0)
    ensures r.cs == (if b.cs.Some? then b.cs.value else 0.0)
    ensures r.total_length == (if b.total_length.Some? then b.total_length.value else 0)
    ensures r.max_combo == (if b.max_combo.Some? then b.max_combo.value else 0)
    ensures r.url == (if Holds(b.url, "") then b.url.value else "https://osu.ppy.sh/beatmaps/" + IdText(b.id))
  {
    BeatmapInfo(b.id, b.beatmapset_id, fields.title, fields.title_unicode, fields.artist, fields.artist_unicode,
                Or(b.version, "", ""), fields.creator,
                Or(b.difficulty_rating, 0.0, 0.0), Or(b.bpm, 0.0, 0.0), Or(b.total_length, 0, 0), Or(b.max_combo, 0, 0),
                Or(b.ar, 0.0, 0.0), Or(b.cs, 0.0, 0.0), Or(b.accuracy, 0.0, 0.0), Or(b.drain, 0.0, 0.0),
                Or(b.url, "", "https://osu.ppy.sh/beatmaps/" + IdText(b.id)), fields.cover_url)
  }

  const BeatmapNotFound := "Beatmap不存在"
  const BeatmapsetNotFound := "Beatmapset不存在"

  /** The response handling of `getBeatmapInfo`: 404 is 'Beatmap不存在',
      any other non-2xx status an error naming the status; a body is mapped
      with the set-level fields of its embedded beatmapset. */
  function DecodeBeatmap(resp: Response<ProviderBeatmap>): (r: Result<BeatmapInfo>)
    ensures r.Ok? <==> resp.Delivered?
    ensures r.Ok? ==> r.value == MapBeatmap(resp.body, MapSetFields(resp.body.beatmapset))
    ensures resp.HttpError? && resp.status == 404 ==> r == Err(BeatmapNotFound)
    ensures resp.HttpError? && resp.status != 404 ==> r == Err("获取Beatmap信息失败: " + Decimal(resp.status))
  {
    match resp
    case Delivered(b) => Ok(MapBeatmap(b, MapSetFields(b.beatmapset)))
    case HttpError(status, _) => if status == 404 then Err(BeatmapNotFound) else Err("获取Beatmap信息失败: " + Decimal(status))
    case BadJson(reason) => Err(reason)
    case NetworkFailure(reason) => Err(reason)
  }

  /** The entries of a beatmapset: one per listed beatmap, in order, each
      with the set's own set-level fields; none when `beatmaps` is missing. */
  function MapBeatmapset(data: ProviderBeatmapset): (r: seq<BeatmapInfo>)
    ensures data.beatmaps.None? ==> r == []
    ensures data.beatmaps.Some? ==> |r| == |data.beatmaps.value|
    ensures data.beatmaps.Some? ==> forall i :: 0 <= i < |r| ==> r[i] == MapBeatmap(data.beatmaps.value[i], MapSetFields(Some(data)))
  {
    match data.beatmaps
    case None => []
    case Some(bs) => seq(|bs|, i requires 0 <= i < |bs| => MapBeatmap(bs[i], MapSetFields(Some(data))))
  }

  /** Every entry of a set result shares the set's title, artist, creator
      and cover, and keeps its own beatmap's id. */
  lemma SetEntriesShareSetFields(data: ProviderBeatmapset, i: int, j: int)
    requires 0 <= i < |MapBeatmapset(data)| && 0 <= j < |MapBeatmapset(data)|
    ensures var r := MapBeatmapset(data);
      && r[i].title == r[j].title && r[i].title_unicode == r[j].title_unicode
      && r[i].artist == r[j].artist && r[i].artist_unicode == r[j].artist_unicode
      && r[i].creator == r[j].creator && r[i].cover_url == r[j].cover_url
      && r[i].id == data.beatmaps.value[i].id
  {
  }

  /** The response handling of `getBeatmapsetInfo`. */
  function DecodeBeatmapset(resp: Response<ProviderBeatmapset>): (r: Result<seq<BeatmapInfo>>)
    ensures r.Ok? <==> resp.Delivered?
    ensures r.Ok? ==> r.value == MapBeatmapset(resp.body)
    ensures resp.HttpError? && resp.status == 404 ==> r == Err(BeatmapsetNotFound)
    ensures resp.HttpError? && resp.status != 404 ==> r == Err("获取Beatmapset信息失败: " + Decimal(resp.status))
  {
    match resp
    case Delivered(data) => Ok(MapBeatmapset(data))
    case HttpError(status, _) => if status == 404 then Err(BeatmapsetNotFound) else Err("获取Beatmapset信息失败: " + Decimal(status))
    case BadJson(reason) => Err(reason)
    case NetworkFailure(reason) => Err(reason)
  }

  function BeatmapRequest(path: string, id: int, token: string): Request
  {
    Request("GET", "https://osu.ppy.sh/api/v2/" + path + "/" + Decimal(id),
            [("Content-Type", "application/json"), ("Authorization", "Bearer " + token)], [])
  }

  /** `getBeatmapInfo(beatmapId)`: the client token, then one GET. */
  method GetBeatmapInfo(beatmapId: int, cache: ClientTokenCache, c: Credentials, now: real,
                        tokenEndpoint: Request -> Response<ClientTokenBody>, endpoint: Request -> Response<ProviderBeatmap>)
    returns (r: Result<BeatmapInfo>, sent: seq<Request>)
    modifies cache
    ensures var step := ValidClientToken(old(cache.cached), c, now, tokenEndpoint);
      && cache.cached == step.cache
      && (step.result.Err? ==> r == Err(step.result.message) && sent == step.sent)
      && (step.result.Ok? ==>
            sent == step.sent + [BeatmapRequest("beatmaps", beatmapId, step.result.value)]
            && r == DecodeBeatmap(endpoint(BeatmapRequest("beatmaps", beatmapId, step.result.value))))
  {
    r, sent := cache.WithClientToken(c, now, tokenEndpoint, t => BeatmapRequest("beatmaps", beatmapId, t), endpoint, DecodeBeatmap);
  }

  /** `getBeatmapsetInfo(beatmapsetId)`: the client token, then one GET. */
  method GetBeatmapsetInfo(beatmapsetId: int, cache: ClientTokenCache, c: Credentials, now: real,
                           tokenEndpoint: Request -> Response<ClientTokenBody>, endpoint: Request -> Response<ProviderBeatmapset>)
    returns (r: Result<seq<BeatmapInfo>>, sent: seq<Request>)
    modifies cache
    ensures var step := ValidClientToken(old(cache.cached), c, now, tokenEndpoint);
      && cache.cached == step.cache
      && (step.result.Err? ==> r == Err(step.result.message) && sent == step.sent)
      && (step.result.Ok? ==>
            sent == step.sent + [BeatmapRequest("beatmapsets", beatmapsetId, step.result.value)]
            && r == DecodeBeatmapset(endpoint(BeatmapRequest("beatmapsets", beatmapsetId, step.result.value))))
  {
    r, sent := cache.WithClientToken(c, now, tokenEndpoint, t => BeatmapRequest("beatmapsets", beatmapsetId, t), endpoint, DecodeBeatmapset);
  }
}
