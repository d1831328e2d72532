/** The osu! API's user record as it arrives (every field may be missing or
    null, shown as None) and the cover shape the clients hand on. */
module OsuTypes {
  import opened Js

  datatype ProviderCover = ProviderCover(custom_url: Option<string>, url: Option<string>, id: Option<string>)

  datatype ProviderLevel = ProviderLevel(current: Option<int>, progress: Option<int>)

  datatype ProviderGrades = ProviderGrades(ss: Option<int>, ssh: Option<int>, s: Option<int>, sh: Option<int>, a: Option<int>)

  datatype ProviderStatistics = ProviderStatistics(
    pp: Option<real>,
    global_rank: Option<int>,
    country_rank: Option<int>,
    ranked_score: Option<int>,
    hit_accuracy: Option<real>,
    play_count: Option<int>,
    play_time: Option<int>,
    level: Option<ProviderLevel>,
    grade_counts: Option<ProviderGrades>)

  datatype ProviderUser = ProviderUser(
    id: Option<int>,
    username: Option<string>,
    avatar_url: Option<string>,
    country_code: Option<string>,
    cover: Option<ProviderCover>,
    statistics: Option<ProviderStatistics>)

  datatype Cover = Cover(custom_url: Option<string>, url: string, id: Option<string>)

  /** The `cover` object both user clients build: present exactly when the
      provider sends one; `url` is the provider's url or ""; an empty
      `custom_url` or `id` becomes null. */
  function MapCover(c: Option<ProviderCover>): (r: Option<Cover>)
    ensures r.Some? <==> c.Some?
    ensures r.Some? ==> r.value.url == (if c.value.url.Some? then c.value.url.value else "")
    ensures r.Some? ==> r.value.custom_url == (if c.value.custom_url == Some("") then None else c.value.custom_url)
    ensures r.Some? ==> r.value.id == (if c.value.id == Some("") then None else c.value.id)
  {
    match c
    case None => None
    case Some(pc) => Some(Cover(OrNull(pc.custom_url, ""), Or(pc.url, "", ""), OrNull(pc.id, "")))
  }
}
