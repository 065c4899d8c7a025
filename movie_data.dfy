/** `main.get_movie_data` (main.py): the older normaliser, which adds derived
    keys to the raw dict without removing any. Its rules differ from
    `clean_media_data`: the first US certification wins, the last official
    video is the trailer, the whole credited cast is kept as a list, and the
    providers are the US rent names. */
module MovieData {
  import opened Wrappers
  import opened PyData
  import opened TmdbRecord
  import opened Extraction
  import opened TmdbHandler

  /** The dict `get_movie_data` returns: the raw record with the keys it
      adds. A list key is None when the loop never created it; so is
      `contentRating` and `trailerUrl`. The cast is the whole credited cast. */
  datatype MovieData = MovieData(
    raw: MovieRecord,
    mediaType: string,
    directors: Option<seq<string>>,
    producers: Option<seq<string>>,
    cast: Option<seq<string>>,
    contentRating: Option<string>,
    backdropPath: string,
    posterPath: string,
    trailerUrl: Option<string>,
    providers: seq<string>)

  /** The first non-empty certification of a region's dates. */
  function FirstCertification(ds: seq<ReleaseDate>): Option<string>
    decreases |ds|
  {
    if ds == [] then None
    else if ds[0].certification != "" then Some(ds[0].certification)
    else FirstCertification(ds[1..])
  }

  /** The content-rating loop: the first US region decides. Its first
      non-empty certification is the rating; when it has none the key was
      never set, and reading it raises KeyError. No US region leaves the key
      unset. */
  function FirstUSCertification(rs: seq<ReleaseCountry>): Result<Option<string>, Error>
    decreases |rs|
  {
    if rs == [] then Success(None)
    else if rs[0].iso31661 == "US" then
      var c := FirstCertification(rs[0].releaseDates);
      if c.Some? then Success(c) else Failure(KeyError("content_rating"))
    else FirstUSCertification(rs[1..])
  }

  /** The key of the last official video: each official video overwrites
      the trailer, whatever its type or site. */
  function LastOfficialKey(vs: seq<Video>): Option<string>
    decreases |vs|
  {
    if vs == [] then None
    else if vs[|vs| - 1].official then Some(vs[|vs| - 1].key)
    else LastOfficialKey(vs[..|vs| - 1])
  }

  /** The trailer link of the last official video, if any. */
  function OfficialTrailer(vs: seq<Video>): Option<string> {
    var key := LastOfficialKey(vs);
    if key.Some? then Some(YouTubeWatch + key.value) else None
  }

  /** What `get_movie_data(tmdb_result)` returns for the record `raw` that
      `movie.info` fetched, failing at the first exception in program order.
      The record is taken to carry no `directors`, `producers`, `cast`,
      `content_rating` or `trailer_url` key of its own: values there are
      not read. */
  function MovieDataOf(result: SearchResult, raw: MovieRecord): Result<MovieData, Error> {
    var credits :- Subscript(raw.credits, "credits");
    var releases :- Subscript(raw.releaseDates, "release_dates");
    var rating :- FirstUSCertification(releases);
    var backdrop :- ImageUrl(raw.backdropPath, "backdrop_path");
    var poster :- ImageUrl(raw.posterPath, "poster_path");
    var videos :- Subscript(raw.videos, "videos");
    var regions :- ProviderRegions(raw.watchProviders);
    var providers :- ProviderNames(USProviders(regions).rent);
    Success(MovieData(
      raw, Capitalize(result.mediaType),
      NonEmpty(CrewNames(credits.crew, "Director")), NonEmpty(CrewNames(credits.crew, "Producer")),
      NonEmpty(CreditedNames(credits.cast)), rating, backdrop, poster,
      OfficialTrailer(videos), providers))
  }

  // ----- the loops -----

  /** The nested content-rating loop with its two breaks. */
  method ContentRatingLoop(results: seq<ReleaseCountry>) returns (r: Result<Option<string>, Error>)
    ensures r == FirstUSCertification(results)
  {
    var i := 0;
    while i < |results|
      invariant 0 <= i <= |results|
      invariant FirstUSCertification(results) == FirstUSCertification(results[i..])
    {
      var result := results[i];
      assert results[i..][1..] == results[i + 1..];
      if result.iso31661 == "US" {
        var rating: Option<string> := None;
        var j := 0;
        while j < |result.releaseDates|
          invariant 0 <= j <= |result.releaseDates|
          invariant FirstCertification(result.releaseDates) == FirstCertification(result.releaseDates[j..])
        {
          var date := result.releaseDates[j];
          assert result.releaseDates[j..][1..] == result.releaseDates[j + 1..];
          if date.certification != "" {
            rating := Some(date.certification);
            break;
          }
          j := j + 1;
        }
        if rating.None? {
          return Failure(KeyError("content_rating"));
        }
        return Success(rating);
      }
      i := i + 1;
    }
    return Success(None);
  }

  /** The official-trailer loop. */
  method OfficialTrailerLoop(videos: seq<Video>) returns (key: Option<string>)
    ensures key == LastOfficialKey(videos)
  {
    key := None;
    var i := 0;
    while i < |videos|
      invariant 0 <= i <= |videos|
      invariant key == LastOfficialKey(videos[..i])
    {
      assert videos[..i + 1][..i] == videos[..i];
      if videos[i].official == true {
        key := Some(videos[i].key);
      }
      i := i + 1;
    }
    assert videos[..|videos|] == videos;
  }

  /** `get_movie_data(tmdb_result)` on the fetched record. */
  method GetMovieData(tmdbResult: SearchResult, movieData: MovieRecord) returns (r: Result<MovieData, Error>)
    ensures r == MovieDataOf(tmdbResult, movieData)
  {
    var mediaType := Capitalize(tmdbResult.mediaType);
    var credits := Subscript(movieData.credits, "credits");
    if credits.Failure? {
      return Failure(credits.error);
    }
    var directors, producers := CollectCrew(credits.value.crew);
    var cast := CollectCredited(credits.value.cast);
    var releases := Subscript(movieData.releaseDates, "release_dates");
    if releases.Failure? {
      return Failure(releases.error);
    }
    var rating := ContentRatingLoop(releases.value);
    if rating.Failure? {
      return Failure(rating.error);
    }
    var backdrop := ImageUrl(movieData.backdropPath, "backdrop_path");
    if backdrop.Failure? {
      return Failure(backdrop.error);
    }
    var poster := ImageUrl(movieData.posterPath, "poster_path");
    if poster.Failure? {
      return Failure(poster.error);
    }
    var videos := Subscript(movieData.videos, "videos");
    if videos.Failure? {
      return Failure(videos.error);
    }
    var key := OfficialTrailerLoop(videos.value);
    var trailerUrl := if key.Some? then Some(YouTubeWatch + key.value) else None;
    var regions := ProviderRegions(movieData.watchProviders);
    if regions.Failure? {
      return Failure(regions.error);
    }
    var providers := ProviderNames(USProviders(regions.value).rent);
    if providers.Failure? {
      return Failure(providers.error);
    }
    r := Success(MovieData(movieData, mediaType, directors, producers, cast, rating.value,
                           backdrop.value, poster.value, trailerUrl, providers.value));
  }
}
