/** What `clean_media_data` promises about its result, proved of the model
    `TmdbHandler.Cleaned`. */
module TmdbHandlerFacts {
  import opened Wrappers
  import opened PyData
  import opened TmdbRecord
  import opened Extraction
  import opened TmdbHandler

  /** m holds v under the key k. */
  predicate Entry(m: map<string, Json>, k: string, v: Json) {
    k in m && m[k] == v
  }

  /** m agrees with d on the key k. */
  predicate SameAt(m: map<string, Json>, d: map<string, Json>, k: string) {
    (k in m <==> k in d) && (k in m ==> m[k] == d[k])
  }

  /** CrewStage leaves every key it does not write as it was. */
  lemma CrewStageKeeps(d: map<string, Json>, raw: MovieRecord, k: string)
    requires CrewStage(d, raw).Success?
    requires k !in {"title", "type", "tagline", "vote_average", "tmdb_rating", "directors", "producers"}
    ensures SameAt(CrewStage(d, raw).value, d, k)
  {
  }

  /** The title and type the first rules leave. */
  lemma CrewStageShape(d: map<string, Json>, raw: MovieRecord)
    requires CrewStage(d, raw).Success?
    ensures raw.credits.Has?
    ensures var m := CrewStage(d, raw).value;
      && Entry(m, "title", StrOrNull(raw.title))
      && Entry(m, "type", JStr(Capitalize("movie")))
  {
  }

  /** The tagline and rating the next rules leave. */
  lemma CrewStageTagline(d: map<string, Json>, raw: MovieRecord)
    requires CrewStage(d, raw).Success?
    ensures var m := CrewStage(d, raw).value;
      && Entry(m, "tagline", StrOrNull(raw.tagline))
      && Entry(m, "tmdb_rating", RatingValue(raw.voteAverage))
  {
  }

  /** The crew rules leave the joined director and producer names. */
  lemma CrewStageNames(d: map<string, Json>, raw: MovieRecord)
    requires CrewStage(d, raw).Success?
    ensures raw.credits.Has?
    ensures var m := CrewStage(d, raw).value;
      var crew := raw.credits.value.crew;
      && Entry(m, "directors", JStr(Join(CrewNames(crew, "Director"), ", ")))
      && Entry(m, "producers", JStr(Join(CrewNames(crew, "Producer"), ", ")))
  {
  }

  /** MediaStage leaves every key it does not write as it was. */
  lemma MediaStageKeeps(d: map<string, Json>, raw: MovieRecord, k: string)
    requires MediaStage(d, raw).Success?
    requires k !in {"genres", "runtime", "streaming", "watch_free", "trailer_url"}
    ensures SameAt(MediaStage(d, raw).value, d, k)
  {
  }

  lemma MediaStageShape(d: map<string, Json>, raw: MovieRecord)
    requires MediaStage(d, raw).Success?
    ensures raw.videos.Has? && !raw.genres.Null? && !raw.watchProviders.Null?
    ensures var m := MediaStage(d, raw).value;
      var us := USProviders(ProviderRegions(raw.watchProviders).value);
      && Entry(m, "genres", NamedObjects(GenreNames(GenreList(raw.genres).value)))
      && Entry(m, "runtime", IntOrNull(raw.runtime))
      && ProviderField(us.flatrate).Success? && ProviderField(us.free).Success?
      && ("streaming" in m <==> "streaming" in d || ProviderField(us.flatrate).value.Some?)
      && (ProviderField(us.flatrate).value.Some? ==> m["streaming"] == ProviderField(us.flatrate).value.value)
      && ("watch_free" in m <==> "watch_free" in d || ProviderField(us.free).value.Some?)
      && (ProviderField(us.free).value.Some? ==> m["watch_free"] == ProviderField(us.free).value.value)
      && Entry(m, "trailer_url", TrailerValue(USTrailers(raw.videos.value)))
  {
  }

  /** CreditsStage leaves every key it does not write as it was. */
  lemma CreditsStageKeeps(d: map<string, Json>, raw: MovieRecord, k: string)
    requires CreditsStage(d, raw).Success?
    requires k !in {"imdb_url", "overview", "synopsis", "release_date", "cast_list", "cast", "country_of_origin", "content_rating"}
    ensures SameAt(CreditsStage(d, raw).value, d, k)
  {
  }

  lemma CreditsStageShape(d: map<string, Json>, raw: MovieRecord)
    requires CreditsStage(d, raw).Success?
    ensures raw.credits.Has? && raw.releaseDates.Has?
    ensures var m := CreditsStage(d, raw).value;
      var rating := LastCertification(USDates(raw.releaseDates.value));
      && Entry(m, "imdb_url", ImdbUrl(raw.imdbId))
      && Entry(m, "synopsis", StrOrNull(raw.overview))
      && Entry(m, "release_date", StrOrNull(raw.releaseDate))
      && "cast_list" !in m
      && Entry(m, "cast", JStr(Join(Take(CreditedNames(raw.credits.value.cast), 10), ", ")))
      && Entry(m, "country_of_origin", FirstCountry(raw.productionCountries))
      && ("content_rating" in m <==> "content_rating" in d || rating.Some?)
      && (rating.Some? ==> m["content_rating"] == rating.value)
  {
  }

  /** ImageStage leaves every key it does not write as it was. */
  lemma ImageStageKeeps(d: map<string, Json>, raw: MovieRecord, k: string)
    requires ImageStage(d, raw).Success?
    requires k !in {"poster_path", "status", "original_title", "backdrop_path"}
    ensures SameAt(ImageStage(d, raw).value, d, k)
  {
  }

  lemma ImageStageShape(d: map<string, Json>, raw: MovieRecord)
    requires ImageStage(d, raw).Success?
    requires "title" in d
    ensures !raw.backdropPath.Missing?
    ensures var m := ImageStage(d, raw).value;
      && Entry(m, "poster_path", PosterUrl(raw.posterPath))
      && Entry(m, "status", StrOrNull(raw.status))
      && Entry(m, "original_title", OriginalTitleValue(d))
      && Entry(m, "backdrop_path", JStr(ImageBase + FormatStr(raw.backdropPath.Get())))
  {
    var d' := d["poster_path" := PosterUrl(raw.posterPath)]["status" := StrOrNull(raw.status)];
    assert OriginalTitleValue(d') == OriginalTitleValue(d);
  }

  /** The stages the movie branch runs, all of them succeeding, and the
      dict each one hands on. */
  lemma MovieStages(d: map<string, Json>, raw: MovieRecord) returns (d1: map<string, Json>, d2: map<string, Json>, d3: map<string, Json>)
    requires MovieFields(d, raw).Success?
    ensures CrewStage(d, raw) == Success(d1)
    ensures MediaStage(d1, raw) == Success(d2)
    ensures CreditsStage(d2, raw) == Success(d3)
    ensures ImageStage(d3, raw) == MovieFields(d, raw)
  {
    d1 := CrewStage(d, raw).value;
    d2 := MediaStage(d1, raw).value;
    d3 := CreditsStage(d2, raw).value;
  }

  /** A key no later stage writes keeps the value the crew rules gave it. */
  lemma KeptAfterCrew(d: map<string, Json>, raw: MovieRecord, k: string)
    requires MovieFields(d, raw).Success?
    requires k !in {"genres", "runtime", "streaming", "watch_free", "trailer_url"}
    requires k !in {"imdb_url", "overview", "synopsis", "release_date", "cast_list", "cast", "country_of_origin", "content_rating"}
    requires k !in {"poster_path", "status", "original_title", "backdrop_path"}
    ensures CrewStage(d, raw).Success? && SameAt(MovieFields(d, raw).value, CrewStage(d, raw).value, k)
  {
    var d1, d2, d3 := MovieStages(d, raw);
    MediaStageKeeps(d1, raw, k);
    CreditsStageKeeps(d2, raw, k);
    ImageStageKeeps(d3, raw, k);
  }

  /** The keys the crew rules write, as the filter receives them. */
  lemma MovieCrewValues(d: map<string, Json>, raw: MovieRecord)
    requires MovieFields(d, raw).Success?
    ensures raw.credits.Has?
    ensures var m := MovieFields(d, raw).value;
      var crew := raw.credits.value.crew;
      && Entry(m, "title", StrOrNull(raw.title))
      && Entry(m, "type", JStr(Capitalize("movie")))
      && Entry(m, "tagline", StrOrNull(raw.tagline))
      && Entry(m, "tmdb_rating", RatingValue(raw.voteAverage))
      && Entry(m, "directors", JStr(Join(CrewNames(crew, "Director"), ", ")))
      && Entry(m, "producers", JStr(Join(CrewNames(crew, "Producer"), ", ")))
  {
    CrewStageShape(d, raw);
    CrewStageTagline(d, raw);
    CrewStageNames(d, raw);
    KeptAfterCrew(d, raw, "title");
    KeptAfterCrew(d, raw, "type");
    KeptAfterCrew(d, raw, "tagline");
    KeptAfterCrew(d, raw, "tmdb_rating");
    KeptAfterCrew(d, raw, "directors");
    KeptAfterCrew(d, raw, "producers");
  }

  /** A key no stage after the media rules writes keeps their value. */
  lemma KeptAfterMedia(d: map<string, Json>, raw: MovieRecord, k: string)
    requires MovieFields(d, raw).Success?
    requires k !in {"imdb_url", "overview", "synopsis", "release_date", "cast_list", "cast", "country_of_origin", "content_rating"}
    requires k !in {"poster_path", "status", "original_title", "backdrop_path"}
    ensures CrewStage(d, raw).Success? && MediaStage(CrewStage(d, raw).value, raw).Success?
    ensures SameAt(MovieFields(d, raw).value, MediaStage(CrewStage(d, raw).value, raw).value, k)
  {
    var d1, d2, d3 := MovieStages(d, raw);
    CreditsStageKeeps(d2, raw, k);
    ImageStageKeeps(d3, raw, k);
  }

  /** The keys the genre, runtime, provider and trailer rules write, as the
      filter receives them. Streaming and watch_free are written only when a
      US list has a truthy entry. */
  lemma MovieMediaValues(d: map<string, Json>, raw: MovieRecord)
    requires MovieFields(d, raw).Success?
    requires "streaming" !in d && "watch_free" !in d
    ensures raw.videos.Has? && !raw.genres.Null? && !raw.watchProviders.Null?
    ensures var m := MovieFields(d, raw).value;
      var us := USProviders(ProviderRegions(raw.watchProviders).value);
      && Entry(m, "genres", NamedObjects(GenreNames(GenreList(raw.genres).value)))
      && Entry(m, "runtime", IntOrNull(raw.runtime))
      && ProviderField(us.flatrate).Success? && ProviderField(us.free).Success?
      && ("streaming" in m <==> ProviderField(us.flatrate).value.Some?)
      && (ProviderField(us.flatrate).value.Some? ==> Entry(m, "streaming", ProviderField(us.flatrate).value.value))
      && ("watch_free" in m <==> ProviderField(us.free).value.Some?)
      && (ProviderField(us.free).value.Some? ==> Entry(m, "watch_free", ProviderField(us.free).value.value))
      && Entry(m, "trailer_url", TrailerValue(USTrailers(raw.videos.value)))
  {
    var d1, d2, d3 := MovieStages(d, raw);
    CrewStageKeeps(d, raw, "streaming");
    CrewStageKeeps(d, raw, "watch_free");
    MediaStageShape(d1, raw);
    KeptAfterMedia(d, raw, "genres");
    KeptAfterMedia(d, raw, "runtime");
    KeptAfterMedia(d, raw, "streaming");
    KeptAfterMedia(d, raw, "watch_free");
    KeptAfterMedia(d, raw, "trailer_url");
  }

  /** The keys the IMDb, synopsis, cast, country and certification rules
      write, as the filter receives them; the popped cast list is gone. */
  lemma MovieCreditsValues(d: map<string, Json>, raw: MovieRecord)
    requires MovieFields(d, raw).Success?
    requires "content_rating" !in d
    ensures raw.credits.Has? && raw.releaseDates.Has?
    ensures var m := MovieFields(d, raw).value;
      var rating := LastCertification(USDates(raw.releaseDates.value));
      && Entry(m, "imdb_url", ImdbUrl(raw.imdbId))
      && Entry(m, "synopsis", StrOrNull(raw.overview))
      && Entry(m, "release_date", StrOrNull(raw.releaseDate))
      && "cast_list" !in m
      && Entry(m, "cast", JStr(Join(Take(CreditedNames(raw.credits.value.cast), 10), ", ")))
      && Entry(m, "country_of_origin", FirstCountry(raw.productionCountries))
      && ("content_rating" in m <==> rating.Some?)
      && (rating.Some? ==> Entry(m, "content_rating", rating.value))
  {
    var d1, d2, d3 := MovieStages(d, raw);
    CrewStageKeeps(d, raw, "content_rating");
    MediaStageKeeps(d1, raw, "content_rating");
    CreditsStageShape(d2, raw);
    ImageStageKeeps(d3, raw, "imdb_url");
    ImageStageKeeps(d3, raw, "synopsis");
    ImageStageKeeps(d3, raw, "release_date");
    ImageStageKeeps(d3, raw, "cast_list");
    ImageStageKeeps(d3, raw, "cast");
    ImageStageKeeps(d3, raw, "country_of_origin");
    ImageStageKeeps(d3, raw, "content_rating");
  }

  /** The keys the image, status and original-title rules write, as the
      filter receives them, and the raw keys no rule touches. */
  lemma MovieImageValues(d: map<string, Json>, raw: MovieRecord, k: string)
    requires MovieFields(d, raw).Success?
    requires k !in {"title", "type", "tagline", "vote_average", "tmdb_rating", "directors", "producers"}
    requires k !in {"genres", "runtime", "streaming", "watch_free", "trailer_url"}
    requires k !in {"imdb_url", "overview", "synopsis", "release_date", "cast_list", "cast", "country_of_origin", "content_rating"}
    requires k !in {"poster_path", "status", "original_title", "backdrop_path"}
    ensures !raw.backdropPath.Missing?
    ensures var m := MovieFields(d, raw).value;
      && Entry(m, "poster_path", PosterUrl(raw.posterPath))
      && Entry(m, "status", StrOrNull(raw.status))
      && Entry(m, "original_title", OriginalTitleValue(d["title" := StrOrNull(raw.title)]))
      && Entry(m, "backdrop_path", JStr(ImageBase + FormatStr(raw.backdropPath.Get())))
      && SameAt(m, d, k)
  {
    var d1, d2, d3 := MovieStages(d, raw);
    CrewStageShape(d, raw);
    CrewStageKeeps(d, raw, "original_title");
    CrewStageKeeps(d, raw, k);
    KeptAfterCrew(d, raw, "title");
    MediaStageKeeps(d1, raw, "title");
    MediaStageKeeps(d1, raw, "original_title");
    MediaStageKeeps(d1, raw, k);
    CreditsStageKeeps(d2, raw, "title");
    CreditsStageKeeps(d2, raw, "original_title");
    CreditsStageKeeps(d2, raw, k);
    ImageStageShape(d3, raw);
    ImageStageKeeps(d3, raw, k);
    assert OriginalTitleValue(d3) == OriginalTitleValue(d["title" := StrOrNull(raw.title)]);
  }
}
