/** The TMDb movie detail record, as `Movies(id).info(append_to_response=
    "watch/providers,credits,release_dates,videos")` returns it, and its view
    as the Python dict that the normalisers mutate. */
module TmdbRecord {
  import opened Wrappers
  import opened PyData

  datatype CrewMember = CrewMember(job: string, name: string)

  datatype CastMember = CastMember(knownForDepartment: string, character: string, name: string)

  datatype Credits = Credits(cast: seq<CastMember>, crew: seq<CrewMember>)

  datatype Genre = Genre(id: int, name: string)

  /** One entry of a watch-provider list: an object with a `provider_name`,
      an empty object, or null. The last two are falsy. Reading
      `provider_name` from an empty object raises KeyError and from null a
      TypeError. */
  datatype Provider = Listed(providerName: string) | EmptyEntry | NullEntry

  /** The lists of one region of the watch/providers sub-resource; an absent
      list is the empty list, as `.get("flatrate", [])` reads it. */
  datatype RegionProviders = RegionProviders(flatrate: seq<Provider>, free: seq<Provider>, rent: seq<Provider>)

  /** One entry of the videos sub-resource. */
  datatype Video = Video(iso31661: string, key: string, site: string, size: int, videoType: string, official: bool)

  datatype ReleaseDate = ReleaseDate(certification: string)

  /** One region of the release_dates sub-resource. */
  datatype ReleaseCountry = ReleaseCountry(iso31661: string, releaseDates: seq<ReleaseDate>)

  datatype Country = Country(iso31661: string, name: string)

  /** One entry of a `search.multi` response. */
  datatype SearchResult = SearchResult(id: int, mediaType: string, title: string)

  /** The raw record. Each top-level key the normalisers read is a slot;
      `watchProviders` holds the per-region `results` map of the
      watch/providers sub-resource (an absent `results` is the empty map),
      `videos` and `releaseDates` hold the `results` lists of theirs. Every
      other top-level key (id, budget, number_of_episodes, ...) is in `others`. */
  datatype MovieRecord = MovieRecord(
    title: Slot<string>,
    tagline: Slot<string>,
    voteAverage: Slot<real>,
    credits: Slot<Credits>,
    genres: Slot<seq<Genre>>,
    runtime: Slot<int>,
    watchProviders: Slot<map<string, RegionProviders>>,
    videos: Slot<seq<Video>>,
    imdbId: Slot<string>,
    overview: Slot<string>,
    releaseDate: Slot<string>,
    productionCountries: Slot<seq<Country>>,
    releaseDates: Slot<seq<ReleaseCountry>>,
    posterPath: Slot<string>,
    status: Slot<string>,
    originalLanguage: Slot<string>,
    originalTitle: Slot<string>,
    backdropPath: Slot<string>,
    others: map<string, Json>)

  /** The keys the movie branch of `clean_media_data` writes only under a
      condition: when some US provider is truthy, or when there is a US
      release date. */
  const ConditionalKeys: set<string> := { "streaming", "watch_free", "content_rating" }

  /** The keys the movie branch of `clean_media_data` extends with
      `setdefault` and `append`: the crew lists and the cast list it then
      pops. */
  const ExtendedKeys: set<string> := { "directors", "producers", "cast_list" }

  /** The keys the slots stand for, the conditionally written keys and the
      extended keys. A raw key among these in `others` is not part of the
      dict view. Every other raw key is, including those the movie branch
      overwrites, such as the `type` of a TV record. */
  const ReservedKeys: set<string> := SlotKeys + ConditionalKeys + ExtendedKeys

  lemma ConditionalKeysNotSlots()
    ensures ConditionalKeys !! SlotKeys && ExtendedKeys !! SlotKeys
  {
  }

  function NameObject(name: string): Json {
    JObj(map["name" := JStr(name)])
  }

  /** One object with a single "name" field per name, in order. */
  function NamedObjects(names: seq<string>): (j: Json)
    ensures j.JArr? && |j.items| == |names|
    ensures forall i :: 0 <= i < |names| ==> j.items[i] == NameObject(names[i])
  {
    JArr(seq(|names|, i requires 0 <= i < |names| => NameObject(names[i])))
  }

  function GenreNames(gs: seq<Genre>): (names: seq<string>)
    ensures |names| == |gs|
    ensures forall i :: 0 <= i < |gs| ==> names[i] == gs[i].name
  {
    seq(|gs|, i requires 0 <= i < |gs| => gs[i].name)
  }

  function GenresJson(gs: seq<Genre>): Json {
    JArr(seq(|gs|, i requires 0 <= i < |gs| => JObj(map["id" := JInt(gs[i].id), "name" := JStr(gs[i].name)])))
  }

  function CreditsJson(c: Credits): Json {
    JObj(map[
      "cast" := JArr(seq(|c.cast|, i requires 0 <= i < |c.cast| =>
        JObj(map["known_for_department" := JStr(c.cast[i].knownForDepartment),
                 "character" := JStr(c.cast[i].character),
                 "name" := JStr(c.cast[i].name)]))),
      "crew" := JArr(seq(|c.crew|, i requires 0 <= i < |c.crew| =>
        JObj(map["job" := JStr(c.crew[i].job), "name" := JStr(c.crew[i].name)])))])
  }

  function ProvidersJson(ps: seq<Provider>): Json {
    JArr(seq(|ps|, i requires 0 <= i < |ps| =>
      match ps[i]
      case Listed(name) => JObj(map["provider_name" := JStr(name)])
      case EmptyEntry => JObj(map[])
      case NullEntry => JNull))
  }

  function WatchProvidersJson(regions: map<string, RegionProviders>): Json {
    JObj(map["results" := JObj(map r | r in regions ::
      JObj(map["flatrate" := ProvidersJson(regions[r].flatrate),
               "free" := ProvidersJson(regions[r].free),
               "rent" := ProvidersJson(regions[r].rent)]))])
  }

  function VideosJson(vs: seq<Video>): Json {
    JObj(map["results" := JArr(seq(|vs|, i requires 0 <= i < |vs| =>
      JObj(map["iso_3166_1" := JStr(vs[i].iso31661), "key" := JStr(vs[i].key),
               "site" := JStr(vs[i].site), "size" := JInt(vs[i].size),
               "type" := JStr(vs[i].videoType), "official" := JBool(vs[i].official)])))])
  }

  function CountriesJson(cs: seq<Country>): Json {
    JArr(seq(|cs|, i requires 0 <= i < |cs| =>
      JObj(map["iso_3166_1" := JStr(cs[i].iso31661), "name" := JStr(cs[i].name)])))
  }

  function ReleaseDatesJson(rs: seq<ReleaseCountry>): Json {
    JObj(map["results" := JArr(seq(|rs|, i requires 0 <= i < |rs| =>
      JObj(map["iso_3166_1" := JStr(rs[i].iso31661),
               "release_dates" := JArr(seq(|rs[i].releaseDates|, j requires 0 <= j < |rs[i].releaseDates| =>
                 JObj(map["certification" := JStr(rs[i].releaseDates[j].certification)])))])))])
  }

  /** The dict entry of one slot: none for Missing, None for Null. */
  function SlotEntry<T>(s: Slot<T>, encode: T -> Json): Option<Json> {
    match s
    case Missing => None
    case Null => Some(JNull)
    case Has(v) => Some(encode(v))
  }

  /** The top-level keys the slots stand for. */
  const SlotKeys: set<string> := {
    "title", "tagline", "vote_average", "credits", "genres", "runtime",
    "watch/providers", "videos", "imdb_id", "overview", "release_date",
    "production_countries", "release_dates", "poster_path", "status",
    "original_language", "original_title", "backdrop_path" }

  /** The entry the record holds under a slot key. */
  function SlotJson(r: MovieRecord, key: string): Option<Json> {
    if key == "title" then SlotEntry(r.title, s => JStr(s))
    else if key == "tagline" then SlotEntry(r.tagline, s => JStr(s))
    else if key == "vote_average" then SlotEntry(r.voteAverage, x => JNum(x))
    else if key == "credits" then SlotEntry(r.credits, CreditsJson)
    else if key == "genres" then SlotEntry(r.genres, GenresJson)
    else if key == "runtime" then SlotEntry(r.runtime, n => JInt(n))
    else if key == "watch/providers" then SlotEntry(r.watchProviders, WatchProvidersJson)
    else if key == "videos" then SlotEntry(r.videos, VideosJson)
    else if key == "imdb_id" then SlotEntry(r.imdbId, s => JStr(s))
    else if key == "overview" then SlotEntry(r.overview, s => JStr(s))
    else if key == "release_date" then SlotEntry(r.releaseDate, s => JStr(s))
    else if key == "production_countries" then SlotEntry(r.productionCountries, CountriesJson)
    else if key == "release_dates" then SlotEntry(r.releaseDates, ReleaseDatesJson)
    else if key == "poster_path" then SlotEntry(r.posterPath, s => JStr(s))
    else if key == "status" then SlotEntry(r.status, s => JStr(s))
    else if key == "original_language" then SlotEntry(r.originalLanguage, s => JStr(s))
    else if key == "original_title" then SlotEntry(r.originalTitle, s => JStr(s))
    else if key == "backdrop_path" then SlotEntry(r.backdropPath, s => JStr(s))
    else None
  }

  /** The raw record as the Python dict `tmdb_data`: the slot entries, and
      the other keys that are not reserved. */
  function AsDict(r: MovieRecord): (d: map<string, Json>)
    ensures forall k :: k in SlotKeys ==> (k in d <==> SlotJson(r, k).Some?)
    ensures forall k :: k in SlotKeys && k in d ==> d[k] == SlotJson(r, k).value
    ensures forall k :: k !in ReservedKeys ==> (k in d <==> k in r.others)
    ensures forall k :: k !in ReservedKeys && k in d ==> d[k] == r.others[k]
    ensures forall k :: k in ConditionalKeys ==> k !in d
    ensures forall k :: k in ExtendedKeys ==> k !in d
  {
    var base := map k | k in r.others && k !in ReservedKeys :: r.others[k];
    var slots := map k | k in SlotKeys && SlotJson(r, k).Some? :: SlotJson(r, k).value;
    ConditionalKeysNotSlots();
    base + slots
  }

  /** The value `d.get(key)` reads from the dict view. */
  function Lookup(d: map<string, Json>, key: string): Json {
    if key in d then d[key] else JNull
  }
}
