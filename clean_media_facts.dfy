/** The properties `clean_media_data` promises of its result, stated on the
    model `TmdbHandler.Cleaned` of the raw record. */
module CleanMediaFacts {
  import opened Wrappers
  import opened PyData
  import opened TmdbRecord
  import opened Extraction
  import opened TmdbHandler
  import opened TmdbHandlerFacts

  // ----- supporting facts about the field rules -----

  /** A provider loop fails exactly when the list mixes truthy and falsy
      entries, raising what the first falsy entry raises (KeyError for an
      empty object, TypeError for null); it writes its key exactly when
      every entry is truthy and there is at least one, and then one name
      object per entry. */
  lemma ProviderFieldSpec(ps: seq<Provider>)
    ensures ProviderField(ps).Failure? <==>
      (exists i :: 0 <= i < |ps| && ps[i].Listed?) && (exists j :: 0 <= j < |ps| && !ps[j].Listed?)
    ensures ProviderField(ps).Failure? ==>
      exists k :: 0 <= k < |ps| && !ps[k].Listed? && (forall i :: 0 <= i < k ==> ps[i].Listed?) &&
        ProviderField(ps).error == UnlistedError(ps[k])
    ensures ProviderField(ps).Success? && ProviderField(ps).value.Some? <==>
      ps != [] && forall i :: 0 <= i < |ps| ==> ps[i].Listed?
    ensures ProviderField(ps).Success? && ProviderField(ps).value.Some? ==>
      var j := ProviderField(ps).value.value;
      j.JArr? && |j.items| == |ps| && forall i :: 0 <= i < |ps| ==> j.items[i] == NameObject(ps[i].providerName)
  {
    ProviderNamesSpec(ps);
    if ps != [] && forall i :: 0 <= i < |ps| ==> ps[i].Listed? {
      assert ps[0].Listed?;
    }
  }

  /** The trailers are exactly the US YouTube trailers of the videos. */
  lemma {:induction false} USTrailersMembers(videos: seq<Video>, v: Video)
    ensures v in USTrailers(videos) <==> v in videos && IsUSYouTubeTrailer(v)
    decreases |videos|
  {
    if videos != [] {
      var init := videos[..|videos| - 1];
      USTrailersMembers(init, v);
      assert videos == init + [videos[|videos| - 1]];
    }
  }

  /** The filter keeps an entry exactly when its key is whitelisted and its
      value is not None. */
  lemma FilteredEntry(m: map<string, Json>, k: string, v: Json)
    requires Entry(m, k, v)
    ensures k in Filtered(m) <==> k in Whitelist && v != JNull
    ensures k in Filtered(m) ==> Filtered(m)[k] == v
  {
  }

  /** The raw dict view never holds the keys the movie rules test before
      writing them. */
  lemma DerivedAbsent(raw: MovieRecord)
    ensures "streaming" !in AsDict(raw) && "watch_free" !in AsDict(raw) && "content_rating" !in AsDict(raw)
  {
    assert "streaming" in ReservedKeys && "watch_free" in ReservedKeys && "content_rating" in ReservedKeys;
  }

  /** What the raw dict view holds under "original_language". */
  lemma OriginalLanguageEntry(raw: MovieRecord)
    ensures "original_language" in AsDict(raw) <==> !raw.originalLanguage.Missing?
    ensures "original_language" in AsDict(raw) ==> AsDict(raw)["original_language"] == StrOrNull(raw.originalLanguage)
  {
    assert "original_language" in SlotKeys;
  }

  /** The original-title rule on the raw dict view: the original title when
      it is given and differs from the title, else None. */
  lemma OriginalTitleEntry(raw: MovieRecord)
    ensures OriginalTitleValue(AsDict(raw)["title" := StrOrNull(raw.title)]) ==
      if raw.originalTitle.Has? && raw.title != raw.originalTitle then JStr(raw.originalTitle.value) else JNull
  {
    assert "original_title" in SlotKeys;
  }

  // ----- the movie branch, on any starting dict -----

  /** The movie branch's result from a starting dict d: the type, title,
      tagline and rating. */
  lemma FilteredTitle(d: map<string, Json>, raw: MovieRecord)
    requires MovieFields(d, raw).Success?
    ensures var r := Filtered(MovieFields(d, raw).value);
      && Entry(r, "type", JStr("Movie"))
      && ("title" in r <==> raw.title.Has?) && (raw.title.Has? ==> Entry(r, "title", JStr(raw.title.value)))
      && ("tagline" in r <==> raw.tagline.Has?) && (raw.tagline.Has? ==> Entry(r, "tagline", JStr(raw.tagline.value)))
      && ("tmdb_rating" in r <==> raw.voteAverage.Has? && raw.voteAverage.value != 0.0)
      && ("tmdb_rating" in r ==> Entry(r, "tmdb_rating", JNum(raw.voteAverage.value)))
  {
    MovieCrewValues(d, raw);
    CapitalizeMovie();
    var m := MovieFields(d, raw).value;
    FilteredEntry(m, "type", m["type"]);
    FilteredEntry(m, "title", m["title"]);
    FilteredEntry(m, "tagline", m["tagline"]);
    FilteredEntry(m, "tmdb_rating", m["tmdb_rating"]);
  }

  /** The IMDb link, synopsis, release date and country. */
  lemma FilteredDetails(d: map<string, Json>, raw: MovieRecord)
    requires MovieFields(d, raw).Success?
    requires "content_rating" !in d
    ensures var r := Filtered(MovieFields(d, raw).value);
      && ("imdb_url" in r <==> TruthyStr(raw.imdbId))
      && (TruthyStr(raw.imdbId) ==> Entry(r, "imdb_url", JStr(ImdbTitle + raw.imdbId.value + "/")))
      && ("synopsis" in r <==> raw.overview.Has?) && (raw.overview.Has? ==> Entry(r, "synopsis", JStr(raw.overview.value)))
      && ("release_date" in r <==> raw.releaseDate.Has?)
      && (raw.releaseDate.Has? ==> Entry(r, "release_date", JStr(raw.releaseDate.value)))
      && ("country_of_origin" in r <==> raw.productionCountries.Has? && raw.productionCountries.value != [])
      && ("country_of_origin" in r ==> Entry(r, "country_of_origin", JStr(raw.productionCountries.value[0].name)))
  {
    MovieCreditsValues(d, raw);
    var m := MovieFields(d, raw).value;
    FilteredEntry(m, "imdb_url", m["imdb_url"]);
    FilteredEntry(m, "synopsis", m["synopsis"]);
    FilteredEntry(m, "release_date", m["release_date"]);
    FilteredEntry(m, "country_of_origin", m["country_of_origin"]);
  }

  /** The joined Directors and Producers. */
  lemma FilteredCrew(d: map<string, Json>, raw: MovieRecord)
    requires MovieFields(d, raw).Success?
    ensures raw.credits.Has?
    ensures var r := Filtered(MovieFields(d, raw).value);
      var crew := raw.credits.value.crew;
      && CrewNames(crew, "Director") != [] && CrewNames(crew, "Producer") != []
      && Entry(r, "directors", JStr(Join(CrewNames(crew, "Director"), ", ")))
      && Entry(r, "producers", JStr(Join(CrewNames(crew, "Producer"), ", ")))
  {
    MovieCrewValues(d, raw);
    var m := MovieFields(d, raw).value;
    FilteredEntry(m, "directors", m["directors"]);
    FilteredEntry(m, "producers", m["producers"]);
  }

  /** The joined cast. */
  lemma FilteredCast(d: map<string, Json>, raw: MovieRecord)
    requires MovieFields(d, raw).Success?
    requires "content_rating" !in d
    ensures raw.credits.Has?
    ensures Entry(Filtered(MovieFields(d, raw).value), "cast",
                  JStr(Join(Take(CreditedNames(raw.credits.value.cast), 10), ", ")))
  {
    MovieCreditsValues(d, raw);
    var m := MovieFields(d, raw).value;
    FilteredEntry(m, "cast", m["cast"]);
  }

  /** The entry a provider loop leaves in the filtered result, for one US
      list: present exactly when the list has a truthy entry, and then one
      name object per entry. */
  ghost predicate ProviderEntry(r: map<string, Json>, key: string, ps: seq<Provider>) {
    && (key in r <==> exists i :: 0 <= i < |ps| && ps[i].Listed?)
    && (key in r ==>
          && r[key].JArr? && |r[key].items| == |ps|
          && forall i :: 0 <= i < |ps| ==> ps[i].Listed? && r[key].items[i] == NameObject(ps[i].providerName))
  }

  lemma ProviderEntryOf(m: map<string, Json>, key: string, ps: seq<Provider>)
    requires key in Whitelist
    requires ProviderField(ps).Success?
    requires key in m <==> ProviderField(ps).value.Some?
    requires ProviderField(ps).value.Some? ==> Entry(m, key, ProviderField(ps).value.value)
    ensures ProviderEntry(Filtered(m), key, ps)
  {
    ProviderFieldSpec(ps);
    if key in m {
      FilteredEntry(m, key, m[key]);
    }
  }

  /** Streaming and watch_free. */
  lemma FilteredProviders(d: map<string, Json>, raw: MovieRecord)
    requires MovieFields(d, raw).Success?
    requires "streaming" !in d && "watch_free" !in d
    ensures !raw.watchProviders.Null?
    ensures var r := Filtered(MovieFields(d, raw).value);
      var regions := ProviderRegions(raw.watchProviders).value;
      var us := USProviders(regions);
      && ProviderEntry(r, "streaming", us.flatrate)
      && ProviderEntry(r, "watch_free", us.free)
      && ("US" !in regions ==> "streaming" !in r && "watch_free" !in r)
  {
    MovieMediaValues(d, raw);
    var us := USProviders(ProviderRegions(raw.watchProviders).value);
    var m := MovieFields(d, raw).value;
    ProviderEntryOf(m, "streaming", us.flatrate);
    ProviderEntryOf(m, "watch_free", us.free);
  }

  /** The trailer link of a filtered result: present exactly when the
      videos hold a US YouTube trailer, and then a link to one of largest
      size, the one `max` picks. */
  ghost predicate TrailerEntry(r: map<string, Json>, videos: seq<Video>) {
    && ("trailer_url" in r <==> exists v :: v in videos && IsUSYouTubeTrailer(v))
    && ("trailer_url" in r ==>
          exists t :: && t in videos && IsUSYouTubeTrailer(t)
                      && r["trailer_url"] == JStr(YouTubeWatch + t.key)
                      && forall v :: v in videos && IsUSYouTubeTrailer(v) ==> v.size <= t.size)
    && ("trailer_url" in r ==> r["trailer_url"] == TrailerValue(USTrailers(videos)))
  }

  lemma TrailerEntryOf(m: map<string, Json>, videos: seq<Video>)
    requires Entry(m, "trailer_url", TrailerValue(USTrailers(videos)))
    ensures TrailerEntry(Filtered(m), videos)
  {
    var ts := USTrailers(videos);
    FilteredEntry(m, "trailer_url", m["trailer_url"]);
    if ts != [] {
      var t := ts[LargestIndex(ts)];
      USTrailersMembers(videos, t);
      forall v | v in videos && IsUSYouTubeTrailer(v) ensures v.size <= t.size {
        USTrailersMembers(videos, v);
      }
    } else {
      forall v | v in videos && IsUSYouTubeTrailer(v) ensures false {
        USTrailersMembers(videos, v);
      }
    }
  }

  /** The trailer link. */
  lemma FilteredTrailer(d: map<string, Json>, raw: MovieRecord)
    requires MovieFields(d, raw).Success?
    requires "streaming" !in d && "watch_free" !in d
    ensures raw.videos.Has?
    ensures TrailerEntry(Filtered(MovieFields(d, raw).value), raw.videos.value)
  {
    MovieMediaValues(d, raw);
    TrailerEntryOf(MovieFields(d, raw).value, raw.videos.value);
  }

  /** The content rating. */
  lemma FilteredContentRating(d: map<string, Json>, raw: MovieRecord)
    requires MovieFields(d, raw).Success?
    requires "content_rating" !in d
    ensures raw.releaseDates.Has?
    ensures var r := Filtered(MovieFields(d, raw).value);
      var ds := USDates(raw.releaseDates.value);
      && ("content_rating" in r <==> ds != [] && ds[|ds| - 1].certification != "")
      && ("content_rating" in r ==> Entry(r, "content_rating", JStr(ds[|ds| - 1].certification)))
  {
    MovieCreditsValues(d, raw);
    var m := MovieFields(d, raw).value;
    if "content_rating" in m {
      FilteredEntry(m, "content_rating", m["content_rating"]);
    }
  }

  /** The image links, status, original title and original language, the
      last two as the starting dict gives them. */
  lemma FilteredImages(d: map<string, Json>, raw: MovieRecord)
    requires MovieFields(d, raw).Success?
    ensures !raw.backdropPath.Missing?
    ensures var r := Filtered(MovieFields(d, raw).value);
      var ot := OriginalTitleValue(d["title" := StrOrNull(raw.title)]);
      && ("poster_path" in r <==> TruthyStr(raw.posterPath))
      && (TruthyStr(raw.posterPath) ==> Entry(r, "poster_path", JStr(ImageBase + raw.posterPath.value)))
      && Entry(r, "backdrop_path", JStr(ImageBase + FormatStr(raw.backdropPath.Get())))
      && ("status" in r <==> raw.status.Has?)
      && (raw.status.Has? ==> Entry(r, "status", JStr(raw.status.value)))
      && ("original_title" in r <==> ot != JNull)
      && ("original_title" in r ==> Entry(r, "original_title", ot))
      && ("original_language" in r <==> "original_language" in d && d["original_language"] != JNull)
      && ("original_language" in r ==> Entry(r, "original_language", d["original_language"]))
  {
    MovieImageValues(d, raw, "original_language");
    var m := MovieFields(d, raw).value;
    FilteredEntry(m, "poster_path", m["poster_path"]);
    FilteredEntry(m, "backdrop_path", m["backdrop_path"]);
    FilteredEntry(m, "status", m["status"]);
    FilteredEntry(m, "original_title", m["original_title"]);
    if "original_language" in m {
      FilteredEntry(m, "original_language", m["original_language"]);
    }
  }

  /** Genres and runtime. */
  lemma FilteredGenres(d: map<string, Json>, raw: MovieRecord)
    requires MovieFields(d, raw).Success?
    requires "streaming" !in d && "watch_free" !in d
    ensures !raw.genres.Null?
    ensures var r := Filtered(MovieFields(d, raw).value);
      var gs := if raw.genres.Has? then raw.genres.value else [];
      && Entry(r, "genres", NamedObjects(GenreNames(gs)))
      && ("runtime" in r <==> raw.runtime.Has?)
      && (raw.runtime.Has? ==> Entry(r, "runtime", JInt(raw.runtime.value)))
  {
    MovieMediaValues(d, raw);
    var m := MovieFields(d, raw).value;
    FilteredEntry(m, "genres", m["genres"]);
    FilteredEntry(m, "runtime", m["runtime"]);
  }

  // ----- the movie branch on the raw record -----

  /** The movie result is the filter applied to the movie fields of the
      raw dict view. */
  lemma CleanedMovie(raw: MovieRecord)
    requires Cleaned(raw, "movie").Success?
    ensures MovieFields(AsDict(raw), raw).Success?
    ensures Cleaned(raw, "movie").value == Filtered(MovieFields(AsDict(raw), raw).value)
  {
    CleanedDictMovie(AsDict(raw), raw);
  }

  lemma CleanedDictMovie(d: map<string, Json>, raw: MovieRecord)
    requires CleanedDict(d, raw, "movie").Success?
    ensures MovieFields(d, raw).Success?
    ensures CleanedDict(d, raw, "movie").value == Filtered(MovieFields(d, raw).value)
  {
  }

  /** A movie's result names its type and carries the title, tagline and
      rating exactly when the raw record gives them a value; an empty
      tagline survives the filter. */
  lemma CleanedTitle(raw: MovieRecord)
    requires Cleaned(raw, "movie").Success?
    ensures var r := Cleaned(raw, "movie").value;
      && Entry(r, "type", JStr("Movie"))
      && ("title" in r <==> raw.title.Has?) && (raw.title.Has? ==> Entry(r, "title", JStr(raw.title.value)))
      && ("tagline" in r <==> raw.tagline.Has?) && (raw.tagline.Has? ==> Entry(r, "tagline", JStr(raw.tagline.value)))
      && ("tmdb_rating" in r <==> raw.voteAverage.Has? && raw.voteAverage.value != 0.0)
      && ("tmdb_rating" in r ==> Entry(r, "tmdb_rating", JNum(raw.voteAverage.value)))
  {
    CleanedMovie(raw);
    FilteredTitle(AsDict(raw), raw);
  }

  /** The IMDb link, synopsis, release date and country are in a movie's
      result exactly when the raw record gives them a (truthy) value. */
  lemma CleanedDetails(raw: MovieRecord)
    requires Cleaned(raw, "movie").Success?
    ensures var r := Cleaned(raw, "movie").value;
      && ("imdb_url" in r <==> TruthyStr(raw.imdbId))
      && (TruthyStr(raw.imdbId) ==> Entry(r, "imdb_url", JStr(ImdbTitle + raw.imdbId.value + "/")))
      && ("synopsis" in r <==> raw.overview.Has?) && (raw.overview.Has? ==> Entry(r, "synopsis", JStr(raw.overview.value)))
      && ("release_date" in r <==> raw.releaseDate.Has?)
      && (raw.releaseDate.Has? ==> Entry(r, "release_date", JStr(raw.releaseDate.value)))
      && ("country_of_origin" in r <==> raw.productionCountries.Has? && raw.productionCountries.value != [])
      && ("country_of_origin" in r ==> Entry(r, "country_of_origin", JStr(raw.productionCountries.value[0].name)))
  {
    CleanedMovie(raw);
    DerivedAbsent(raw);
    FilteredDetails(AsDict(raw), raw);
  }

  /** Raw-record errors before the directors are joined: no credits, no
      Director, or a Director but no Producer ends the call. */
  lemma CrewErrors(raw: MovieRecord)
    ensures raw.credits.Missing? ==> Cleaned(raw, "movie") == Failure(KeyError("credits"))
    ensures raw.credits.Null? ==> Cleaned(raw, "movie") == Failure(TypeError("credits"))
    ensures raw.credits.Has? && CrewNames(raw.credits.value.crew, "Director") == [] ==>
      Cleaned(raw, "movie") == Failure(TypeError("directors"))
    ensures (raw.credits.Has? && CrewNames(raw.credits.value.crew, "Director") != [] &&
             CrewNames(raw.credits.value.crew, "Producer") == []) ==>
      Cleaned(raw, "movie") == Failure(TypeError("producers"))
  {
  }

  /** A movie's result lists every Director and every Producer of the crew,
      joined with ", " in crew order; there is at least one of each. */
  lemma CleanedCrew(raw: MovieRecord)
    requires Cleaned(raw, "movie").Success?
    ensures raw.credits.Has?
    ensures var r := Cleaned(raw, "movie").value;
      var crew := raw.credits.value.crew;
      && CrewNames(crew, "Director") != [] && CrewNames(crew, "Producer") != []
      && Entry(r, "directors", JStr(Join(CrewNames(crew, "Director"), ", ")))
      && Entry(r, "producers", JStr(Join(CrewNames(crew, "Producer"), ", ")))
  {
    CleanedMovie(raw);
    FilteredCrew(AsDict(raw), raw);
  }

  /** The cast is always in a movie's result, even when it is the empty
      string: at most ten credited cast names, in cast order. */
  lemma CleanedCast(raw: MovieRecord)
    requires Cleaned(raw, "movie").Success?
    ensures raw.credits.Has?
    ensures var r := Cleaned(raw, "movie").value;
      var names := Take(CreditedNames(raw.credits.value.cast), 10);
      && Entry(r, "cast", JStr(Join(names, ", ")))
      && |names| <= 10
      && names == CreditedNames(raw.credits.value.cast)[..|names|]
  {
    CleanedMovie(raw);
    DerivedAbsent(raw);
    FilteredCast(AsDict(raw), raw);
  }

  /** Streaming and watch_free come from the US lists only, one
      `{"name": ...}` object per entry, and are present exactly when the
      list has a truthy entry (a list mixing truthy and falsy entries has
      already failed). */
  lemma CleanedProviders(raw: MovieRecord)
    requires Cleaned(raw, "movie").Success?
    ensures !raw.watchProviders.Null?
    ensures var r := Cleaned(raw, "movie").value;
      var regions := ProviderRegions(raw.watchProviders).value;
      var us := USProviders(regions);
      && ProviderEntry(r, "streaming", us.flatrate)
      && ProviderEntry(r, "watch_free", us.free)
      && ("US" !in regions ==> "streaming" !in r && "watch_free" !in r)
  {
    CleanedMovie(raw);
    DerivedAbsent(raw);
    FilteredProviders(AsDict(raw), raw);
  }

  /** The trailer link is present exactly when the videos hold a US YouTube
      trailer, and then it links one of largest size. */
  lemma CleanedTrailer(raw: MovieRecord)
    requires Cleaned(raw, "movie").Success?
    ensures raw.videos.Has?
    ensures TrailerEntry(Cleaned(raw, "movie").value, raw.videos.value)
  {
    CleanedMovie(raw);
    DerivedAbsent(raw);
    FilteredTrailer(AsDict(raw), raw);
  }

  /** The content rating is the certification of the last US release date,
      and is dropped when that certification is empty or there is none. */
  lemma CleanedContentRating(raw: MovieRecord)
    requires Cleaned(raw, "movie").Success?
    ensures raw.releaseDates.Has?
    ensures var r := Cleaned(raw, "movie").value;
      var ds := USDates(raw.releaseDates.value);
      && ("content_rating" in r <==> ds != [] && ds[|ds| - 1].certification != "")
      && ("content_rating" in r ==> Entry(r, "content_rating", JStr(ds[|ds| - 1].certification)))
  {
    CleanedMovie(raw);
    DerivedAbsent(raw);
    FilteredContentRating(AsDict(raw), raw);
  }

  /** Two US release-date lists: a later certification overrides an earlier
      one, and a trailing empty one overrides it with None. */
  lemma ContentRatingExamples()
    ensures LastCertification(USDates([ReleaseCountry("US", [ReleaseDate(""), ReleaseDate("PG-13"), ReleaseDate(""), ReleaseDate("R")])])) == Some(JStr("R"))
    ensures LastCertification(USDates([ReleaseCountry("US", [ReleaseDate("PG-13"), ReleaseDate("")]), ReleaseCountry("GB", [ReleaseDate("15")])])) == Some(JNull)
  {
    var a := [ReleaseCountry("US", [ReleaseDate(""), ReleaseDate("PG-13"), ReleaseDate(""), ReleaseDate("R")])];
    assert a[..0] == [];
    var b := [ReleaseCountry("US", [ReleaseDate("PG-13"), ReleaseDate("")]), ReleaseCountry("GB", [ReleaseDate("15")])];
    assert b[..1][..0] == [];
    assert USDates(b[..1]) == b[0].releaseDates;
  }

  /** The image links, status, original title and original language. The
      poster is linked only for a truthy path while the backdrop is always
      linked, "None" standing in for a null path; the original title is kept
      only when it differs from the title. */
  lemma CleanedImages(raw: MovieRecord)
    requires Cleaned(raw, "movie").Success?
    ensures !raw.backdropPath.Missing?
    ensures var r := Cleaned(raw, "movie").value;
      && ("poster_path" in r <==> TruthyStr(raw.posterPath))
      && (TruthyStr(raw.posterPath) ==> Entry(r, "poster_path", JStr(ImageBase + raw.posterPath.value)))
      && Entry(r, "backdrop_path", JStr(ImageBase + FormatStr(raw.backdropPath.Get())))
      && ("status" in r <==> raw.status.Has?)
      && (raw.status.Has? ==> Entry(r, "status", JStr(raw.status.value)))
      && ("original_title" in r <==> raw.originalTitle.Has? && raw.title != raw.originalTitle)
      && ("original_title" in r ==> Entry(r, "original_title", JStr(raw.originalTitle.value)))
      && ("original_language" in r <==> raw.originalLanguage.Has?)
      && ("original_language" in r ==> Entry(r, "original_language", JStr(raw.originalLanguage.value)))
  {
    CleanedMovie(raw);
    OriginalLanguageEntry(raw);
    OriginalTitleEntry(raw);
    FilteredImages(AsDict(raw), raw);
  }

  /** Genres become name objects only; the runtime is kept when given. */
  lemma CleanedGenres(raw: MovieRecord)
    requires Cleaned(raw, "movie").Success?
    ensures !raw.genres.Null?
    ensures var r := Cleaned(raw, "movie").value;
      var gs := if raw.genres.Has? then raw.genres.value else [];
      && Entry(r, "genres", NamedObjects(GenreNames(gs)))
      && ("runtime" in r <==> raw.runtime.Has?)
      && (raw.runtime.Has? ==> Entry(r, "runtime", JInt(raw.runtime.value)))
  {
    CleanedMovie(raw);
    DerivedAbsent(raw);
    FilteredGenres(AsDict(raw), raw);
  }

  /** A provider list with both a truthy and a falsy entry. */
  ghost predicate Mixed(ps: seq<Provider>) {
    (exists i :: 0 <= i < |ps| && ps[i].Listed?) && (exists j :: 0 <= j < |ps| && !ps[j].Listed?)
  }

  /** The raw records the movie branch accepts. */
  ghost predicate MovieAccepted(raw: MovieRecord) {
    && raw.credits.Has?
    && CrewNames(raw.credits.value.crew, "Director") != []
    && CrewNames(raw.credits.value.crew, "Producer") != []
    && !raw.genres.Null?
    && !raw.watchProviders.Null?
    && !Mixed(USProviders(ProviderRegions(raw.watchProviders).value).flatrate)
    && !Mixed(USProviders(ProviderRegions(raw.watchProviders).value).free)
    && raw.videos.Has?
    && raw.releaseDates.Has?
    && !raw.backdropPath.Missing?
  }

  lemma CrewStageSucceeds(d: map<string, Json>, raw: MovieRecord)
    ensures CrewStage(d, raw).Success? <==>
      && raw.credits.Has?
      && CrewNames(raw.credits.value.crew, "Director") != []
      && CrewNames(raw.credits.value.crew, "Producer") != []
  {
  }

  lemma MediaStageSucceeds(d: map<string, Json>, raw: MovieRecord)
    ensures MediaStage(d, raw).Success? <==>
      && !raw.genres.Null?
      && !raw.watchProviders.Null?
      && !Mixed(USProviders(ProviderRegions(raw.watchProviders).value).flatrate)
      && !Mixed(USProviders(ProviderRegions(raw.watchProviders).value).free)
      && raw.videos.Has?
  {
    if !raw.watchProviders.Null? {
      var us := USProviders(ProviderRegions(raw.watchProviders).value);
      ProviderFieldSpec(us.flatrate);
      ProviderFieldSpec(us.free);
    }
  }

  lemma CreditsStageSucceeds(d: map<string, Json>, raw: MovieRecord)
    ensures CreditsStage(d, raw).Success? <==> raw.credits.Has? && raw.releaseDates.Has?
  {
  }

  lemma ImageStageSucceeds(d: map<string, Json>, raw: MovieRecord)
    ensures ImageStage(d, raw).Success? <==> !raw.backdropPath.Missing?
  {
  }

  /** The movie branch raises an exception exactly when the raw record lacks
      credits, a Director or a Producer, has null genres or providers, mixes
      truthy and falsy entries in a US provider list, lacks videos or
      release dates, or has no backdrop key. */
  lemma CleanedSucceeds(raw: MovieRecord)
    ensures Cleaned(raw, "movie").Success? <==> MovieAccepted(raw)
  {
    var d := AsDict(raw);
    CrewStageSucceeds(d, raw);
    if CrewStage(d, raw).Success? {
      var d1 := CrewStage(d, raw).value;
      MediaStageSucceeds(d1, raw);
      if MediaStage(d1, raw).Success? {
        var d2 := MediaStage(d1, raw).value;
        CreditsStageSucceeds(d2, raw);
        if CreditsStage(d2, raw).Success? {
          ImageStageSucceeds(CreditsStage(d2, raw).value, raw);
        }
      }
    }
  }

  /** Every other media type skips the field rules and cannot fail: only
      the filter runs, so a raw key outside the slots survives exactly when
      it is whitelisted and not None, with its raw value. A TV record's own
      `type` is kept this way. */
  lemma NonMovieOwnKeys(raw: MovieRecord, mediaType: string)
    requires mediaType != "movie"
    ensures Cleaned(raw, mediaType) == Success(Filtered(AsDict(raw)))
    ensures var r := Cleaned(raw, mediaType).value;
      forall k :: k !in ReservedKeys ==>
        && (k in r <==> k in Whitelist && k in raw.others && raw.others[k] != JNull)
        && (k in r ==> r[k] == raw.others[k])
    ensures var r := Cleaned(raw, mediaType).value;
      && ("type" in r <==> "type" in raw.others && raw.others["type"] != JNull)
      && ("type" in r ==> r["type"] == raw.others["type"])
    ensures forall k :: k in ConditionalKeys ==> k !in Cleaned(raw, mediaType).value
  {
    assert "type" !in ReservedKeys && "type" in Whitelist;
  }

  /** Every other media type passes the raw entries that are whitelisted
      and not None through unconverted: genres keep their ids, the poster
      path is a bare path. */
  lemma NonMovieOnlyFilters(raw: MovieRecord, mediaType: string)
    requires mediaType != "movie"
    ensures Cleaned(raw, mediaType).Success?
    ensures var r := Cleaned(raw, mediaType).value;
      && ("genres" in r <==> raw.genres.Has?)
      && (raw.genres.Has? ==> Entry(r, "genres", GenresJson(raw.genres.value)))
      && ("poster_path" in r <==> raw.posterPath.Has?)
      && (raw.posterPath.Has? ==> Entry(r, "poster_path", JStr(raw.posterPath.value)))
      && ("title" in r <==> raw.title.Has?)
  {
    assert "genres" in SlotKeys && "poster_path" in SlotKeys && "title" in SlotKeys;
    ConditionalKeysNotSlots();
  }

  /** The largest trailer is linked wherever it stands, and among equally
      large trailers the first is linked. */
  lemma LargestTrailerExample()
    ensures var ts := [Video("US", "a", "YouTube", 480, "Trailer", true),
                       Video("US", "b", "YouTube", 1080, "Trailer", true),
                       Video("US", "c", "YouTube", 720, "Trailer", true)];
      TrailerValue(ts) == JStr(YouTubeWatch + "b")
    ensures var ts := [Video("US", "a", "YouTube", 1080, "Trailer", true),
                       Video("US", "b", "YouTube", 720, "Trailer", true),
                       Video("US", "c", "YouTube", 1080, "Trailer", true)];
      TrailerValue(ts) == JStr(YouTubeWatch + "a")
  {
    var us := [Video("US", "a", "YouTube", 480, "Trailer", true),
               Video("US", "b", "YouTube", 1080, "Trailer", true),
               Video("US", "c", "YouTube", 720, "Trailer", true)];
    assert LargestIndex(us) == 1;
    var ts := [Video("US", "a", "YouTube", 1080, "Trailer", true),
               Video("US", "b", "YouTube", 720, "Trailer", true),
               Video("US", "c", "YouTube", 1080, "Trailer", true)];
    assert LargestIndex(ts) == 0;
  }
}
