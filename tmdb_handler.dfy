/** `TMDBHandler.clean_media_data` and `get_cleaned_media_data`
    (utils/TMDBHandler.py): the dict `tmdb_data` is rewritten field by field
    for a movie, then every key that is None or off the whitelist is deleted. */
module TmdbHandler {
  import opened Wrappers
  import opened PyData
  import opened TmdbRecord
  import opened Extraction

  /** The keys that survive the final loop. */
  const Whitelist: seq<string> := [
    "title", "type", "tagline", "tmdb_rating", "directors", "producers",
    "genres", "runtime", "streaming", "watch_free", "trailer_url", "imdb_url",
    "synopsis", "release_date", "cast", "country_of_origin", "content_rating",
    "poster_path", "status", "original_language", "original_title",
    "backdrop_path"]

  const ImageBase := "https://image.tmdb.org/t/p/original"
  const YouTubeWatch := "https://www.youtube.com/watch?v="
  const ImdbTitle := "https://www.imdb.com/title/"

  // ----- the field rules, as functions of the raw record -----

  /** `round(vote_average, 1)` when vote_average is truthy, else None. */
  function RatingValue(va: Slot<real>): Json {
    if va.Has? && va.value != 0.0 then JNum(va.value) else JNull
  }

  function IntOrNull(n: Slot<int>): Json {
    if n.Has? then JInt(n.value) else JNull
  }

  /** The genre list read with an empty default: absent is the empty list;
      iterating a null raises TypeError. */
  function GenreList(g: Slot<seq<Genre>>): Result<seq<Genre>, Error> {
    match g
    case Missing => Success([])
    case Null => Failure(TypeError("genres"))
    case Has(gs) => Success(gs)
  }

  /** The comma-joined names read with no default: joining None raises
      TypeError. */
  function JoinNames(names: Option<seq<string>>, key: string): Result<string, Error> {
    if names.None? then Failure(TypeError(key)) else Success(Join(names.value, ", "))
  }

  /** The streaming / watch-free loop: the key is set, to one `{"name": ...}`
      object per entry, only when some entry is truthy. */
  function ProviderField(ps: seq<Provider>): Result<Option<Json>, Error> {
    if exists i :: 0 <= i < |ps| && ps[i].Listed? then
      var names :- ProviderNames(ps);
      Success(Some(NamedObjects(names)))
    else Success(None)
  }

  predicate IsUSYouTubeTrailer(v: Video) {
    v.videoType == "Trailer" && v.site == "YouTube" && v.iso31661 == "US"
  }

  /** The `trailers` list: the US YouTube trailers, in list order. */
  function USTrailers(videos: seq<Video>): seq<Video>
    decreases |videos|
  {
    if videos == [] then []
    else
      var last := videos[|videos| - 1];
      USTrailers(videos[..|videos| - 1]) + (if IsUSYouTubeTrailer(last) then [last] else [])
  }

  /** The element `max(trailers, key=lambda x: x["size"])` picks: a largest
      size, and the first one among equals. */
  function LargestIndex(ts: seq<Video>): (k: nat)
    requires |ts| > 0
    ensures k < |ts|
    ensures forall j :: 0 <= j < |ts| ==> ts[j].size <= ts[k].size
    ensures forall j :: 0 <= j < k ==> ts[j].size < ts[k].size
    decreases |ts|
  {
    if |ts| == 1 then 0
    else
      var k := LargestIndex(ts[..|ts| - 1]);
      if ts[|ts| - 1].size > ts[k].size then |ts| - 1 else k
  }

  function TrailerValue(trailers: seq<Video>): Json {
    if trailers == [] then JNull else JStr(YouTubeWatch + trailers[LargestIndex(trailers)].key)
  }

  function ImdbUrl(id: Slot<string>): Json {
    if TruthyStr(id) then JStr(ImdbTitle + id.value + "/") else JNull
  }

  /** The first production country's name when the list is truthy, else None. */
  function FirstCountry(cs: Slot<seq<Country>>): Json {
    if cs.Has? && cs.value != [] then JStr(cs.value[0].name) else JNull
  }

  /** The release dates of the US region(s), in list order. */
  function USDates(rs: seq<ReleaseCountry>): seq<ReleaseDate>
    decreases |rs|
  {
    if rs == [] then []
    else
      var last := rs[|rs| - 1];
      USDates(rs[..|rs| - 1]) + (if last.iso31661 == "US" then last.releaseDates else [])
  }

  function CertificationValue(c: string): Json {
    if c != "" then JStr(c) else JNull
  }

  /** The `content_rating` key the nested loop leaves: each US date
      overwrites it, an empty certification with None; no US date leaves it
      unset. */
  function LastCertification(ds: seq<ReleaseDate>): Option<Json> {
    if ds == [] then None else Some(CertificationValue(ds[|ds| - 1].certification))
  }

  function PosterUrl(p: Slot<string>): Json {
    if TruthyStr(p) then JStr(ImageBase + p.value) else JNull
  }

  /** The original-size image URL of a path read by subscript: KeyError when
      the key is absent, "None" in the URL when it is null. */
  function ImageUrl(p: Slot<string>, key: string): (r: Result<string, Error>)
    ensures r.Failure? <==> p.Missing?
    ensures r.Failure? ==> r.error == KeyError(key)
    ensures r.Success? ==> r.value == ImageBase + FormatStr(p.Get())
  {
    match p
    case Missing => Failure(KeyError(key))
    case Null => Success(ImageBase + FormatStr(None))
    case Has(v) => Success(ImageBase + v)
  }

  /** The original title, kept only when it differs from the title; an
      absent original title compares as "" and a missing title as None. */
  function OriginalTitleValue(d: map<string, Json>): Json {
    var ot := if "original_title" in d then d["original_title"] else JStr("");
    if ot != Lookup(d, "title") then Lookup(d, "original_title") else JNull
  }

  /** Lines 91-113: title, type, tagline, rating, directors and producers. */
  function CrewStage(d: map<string, Json>, raw: MovieRecord): Result<map<string, Json>, Error> {
    var d := d["title" := StrOrNull(raw.title)];
    var d := d["type" := JStr(Capitalize("movie"))];
    var d := d["tagline" := StrOrNull(raw.tagline)];
    var d := if RatingValue(raw.voteAverage) != JNull then d - {"vote_average"} else d;
    var d := d["tmdb_rating" := RatingValue(raw.voteAverage)];
    var credits :- Subscript(raw.credits, "credits");
    var directors :- JoinNames(NonEmpty(CrewNames(credits.crew, "Director")), "directors");
    var d := d["directors" := JStr(directors)];
    var producers :- JoinNames(NonEmpty(CrewNames(credits.crew, "Producer")), "producers");
    Success(d["producers" := JStr(producers)])
  }

  /** Lines 116-172: genres, runtime, streaming, watch_free and trailer_url. */
  function MediaStage(d: map<string, Json>, raw: MovieRecord): Result<map<string, Json>, Error> {
    var genres :- GenreList(raw.genres);
    var d := d["genres" := NamedObjects(GenreNames(genres))];
    var d := d["runtime" := IntOrNull(raw.runtime)];
    var regions :- ProviderRegions(raw.watchProviders);
    var streaming :- ProviderField(USProviders(regions).flatrate);
    var d := if streaming.Some? then d["streaming" := streaming.value] else d;
    var free :- ProviderField(USProviders(regions).free);
    var d := if free.Some? then d["watch_free" := free.value] else d;
    var videos :- Subscript(raw.videos, "videos");
    Success(d["trailer_url" := TrailerValue(USTrailers(videos))])
  }

  /** Lines 175-212: imdb_url, synopsis, release_date, cast (popping the
      cast list), country_of_origin and content_rating. */
  function CreditsStage(d: map<string, Json>, raw: MovieRecord): Result<map<string, Json>, Error> {
    var d := d["imdb_url" := ImdbUrl(raw.imdbId)];
    var d := (d - {"overview"})["synopsis" := StrOrNull(raw.overview)];
    var d := d["release_date" := StrOrNull(raw.releaseDate)];
    var credits :- Subscript(raw.credits, "credits");
    var d := (d - {"cast_list"})["cast" := JStr(Join(Take(CreditedNames(credits.cast), 10), ", "))];
    var d := d["country_of_origin" := FirstCountry(raw.productionCountries)];
    var releases :- Subscript(raw.releaseDates, "release_dates");
    var rating := LastCertification(USDates(releases));
    Success(if rating.Some? then d["content_rating" := rating.value] else d)
  }

  /** Lines 215-259: poster_path, status, original_title and backdrop_path. */
  function ImageStage(d: map<string, Json>, raw: MovieRecord): Result<map<string, Json>, Error> {
    var d := d["poster_path" := PosterUrl(raw.posterPath)];
    var d := d["status" := StrOrNull(raw.status)];
    var d := d["original_title" := OriginalTitleValue(d)];
    var backdrop :- ImageUrl(raw.backdropPath, "backdrop_path");
    Success(d["backdrop_path" := JStr(backdrop)])
  }

  /** The movie branch on the dict d of the record raw: the dict after every
      field rule, before the filter. */
  function MovieFields(d: map<string, Json>, raw: MovieRecord): Result<map<string, Json>, Error> {
    var d :- CrewStage(d, raw);
    var d :- MediaStage(d, raw);
    var d :- CreditsStage(d, raw);
    ImageStage(d, raw)
  }

  /** The final loop: whitelisted keys with a value other than None. */
  function Filtered(d: map<string, Json>): map<string, Json> {
    map k | k in d && k in Whitelist && d[k] != JNull :: d[k]
  }

  /** The function body on the dict `d` of the record `raw`. Only "movie"
      has field rules; every other media type goes straight to the filter. */
  function CleanedDict(d: map<string, Json>, raw: MovieRecord, mediaType: string): Result<map<string, Json>, Error> {
    if mediaType == "movie" then
      var m :- MovieFields(d, raw);
      Success(Filtered(m))
    else Success(Filtered(d))
  }

  /** What `clean_media_data(tmdb_data, media_type)` returns. */
  function Cleaned(raw: MovieRecord, mediaType: string): Result<map<string, Json>, Error> {
    CleanedDict(AsDict(raw), raw, mediaType)
  }

  // ----- the loops of clean_media_data -----

  /** The loop over one US provider list. */
  method ProviderLoop(ps: seq<Provider>) returns (r: Result<Option<Json>, Error>)
    ensures r == ProviderField(ps)
  {
    r := Success(None);
    var i := 0;
    while i < |ps|
      invariant 0 <= i <= |ps|
      invariant (exists j :: 0 <= j < i && ps[j].Listed?) ==> ProviderNames(ps).Success?
      invariant r == if exists j :: 0 <= j < i && ps[j].Listed? then Success(Some(NamedObjects(ProviderNames(ps).value))) else Success(None)
    {
      if ps[i].Listed? {
        var names := ProviderNames(ps);
        if names.Failure? {
          return Failure(names.error);
        }
        r := Success(Some(NamedObjects(names.value)));
      }
      i := i + 1;
    }
  }

  /** The loop that collects `trailers`. */
  method CollectTrailers(videos: seq<Video>) returns (trailers: seq<Video>)
    ensures trailers == USTrailers(videos)
  {
    trailers := [];
    var i := 0;
    while i < |videos|
      invariant 0 <= i <= |videos|
      invariant trailers == USTrailers(videos[..i])
    {
      var trailer := videos[i];
      assert videos[..i + 1][..i] == videos[..i];
      assert USTrailers(videos[..i + 1]) == if IsUSYouTubeTrailer(trailer) then trailers + [trailer] else trailers by {
        assert trailers + [] == trailers;
      }
      if trailer.videoType == "Trailer" && trailer.site == "YouTube" && trailer.iso31661 == "US" {
        trailers := trailers + [trailer];
      }
      i := i + 1;
    }
    assert videos[..|videos|] == videos;
  }

  lemma USDatesStep(rs: seq<ReleaseCountry>, i: nat)
    requires i < |rs|
    ensures USDates(rs[..i + 1]) == if rs[i].iso31661 == "US" then USDates(rs[..i]) + rs[i].releaseDates else USDates(rs[..i])
  {
    assert rs[..i + 1][..i] == rs[..i];
    assert USDates(rs[..i]) + [] == USDates(rs[..i]);
  }

  /** The nested content-rating loop; `rating` is None while the key is unset. */
  method ContentRatingLoop(results: seq<ReleaseCountry>) returns (rating: Option<Json>)
    ensures rating == LastCertification(USDates(results))
  {
    rating := None;
    var i := 0;
    while i < |results|
      invariant 0 <= i <= |results|
      invariant rating == LastCertification(USDates(results[..i]))
    {
      var result := results[i];
      USDatesStep(results, i);
      if result.iso31661 == "US" {
        ghost var before := USDates(results[..i]);
        assert before + result.releaseDates[..0] == before;
        var j := 0;
        while j < |result.releaseDates|
          invariant 0 <= j <= |result.releaseDates|
          invariant rating == LastCertification(before + result.releaseDates[..j])
        {
          var date := result.releaseDates[j];
          assert (before + result.releaseDates[..j + 1])[|before| + j] == date;
          if date.certification != "" {
            rating := Some(JStr(date.certification));
          } else {
            rating := Some(JNull);
          }
          j := j + 1;
        }
        assert result.releaseDates[..j] == result.releaseDates;
      }
      i := i + 1;
    }
    assert results[..|results|] == results;
  }

  /** The final loop, deleting every key that is None or off the whitelist. */
  method RemoveUnwanted(d: map<string, Json>) returns (r: map<string, Json>)
    ensures forall k :: k in r <==> k in d && k in Whitelist && d[k] != JNull
    ensures forall k :: k in r ==> r[k] == d[k]
    ensures r == Filtered(d)
  {
    r := d;
    var keys := d.Keys;
    while keys != {}
      invariant keys <= d.Keys
      invariant forall k :: k in r <==> k in d && (k in keys || (k in Whitelist && d[k] != JNull))
      invariant forall k :: k in r ==> r[k] == d[k]
      decreases keys
    {
      var key :| key in keys;
      if r[key] == JNull || key !in Whitelist {
        r := r - {key};
      }
      keys := keys - {key};
    }
    assert r.Keys == Filtered(d).Keys;
  }

  method CleanCrew(d: map<string, Json>, tmdbData: MovieRecord) returns (r: Result<map<string, Json>, Error>)
    ensures r == CrewStage(d, tmdbData)
  {
    var d := d;
    d := d["title" := StrOrNull(tmdbData.title)];
    d := d["type" := JStr(Capitalize("movie"))];
    d := d["tagline" := StrOrNull(tmdbData.tagline)];
    if tmdbData.voteAverage.Has? && tmdbData.voteAverage.value != 0.0 {
      d := (d - {"vote_average"})["tmdb_rating" := JNum(tmdbData.voteAverage.value)];
    } else {
      d := d["tmdb_rating" := JNull];
    }
    var credits := Subscript(tmdbData.credits, "credits");
    if credits.Failure? {
      return Failure(credits.error);
    }
    var directors, producers := CollectCrew(credits.value.crew);
    if directors.None? {
      return Failure(TypeError("directors"));
    }
    d := d["directors" := JStr(Join(directors.value, ", "))];
    if producers.None? {
      return Failure(TypeError("producers"));
    }
    d := d["producers" := JStr(Join(producers.value, ", "))];
    r := Success(d);
  }

  method CleanMedia(d: map<string, Json>, tmdbData: MovieRecord) returns (r: Result<map<string, Json>, Error>)
    ensures r == MediaStage(d, tmdbData)
  {
    var d := d;
    var genres := GenreList(tmdbData.genres);
    if genres.Failure? {
      return Failure(genres.error);
    }
    d := d["genres" := NamedObjects(GenreNames(genres.value))];
    d := d["runtime" := IntOrNull(tmdbData.runtime)];
    var regions := ProviderRegions(tmdbData.watchProviders);
    if regions.Failure? {
      return Failure(regions.error);
    }
    var streaming := ProviderLoop(USProviders(regions.value).flatrate);
    if streaming.Failure? {
      return Failure(streaming.error);
    }
    if streaming.value.Some? {
      d := d["streaming" := streaming.value.value];
    }
    var free := ProviderLoop(USProviders(regions.value).free);
    if free.Failure? {
      return Failure(free.error);
    }
    if free.value.Some? {
      d := d["watch_free" := free.value.value];
    }
    var videos := Subscript(tmdbData.videos, "videos");
    if videos.Failure? {
      return Failure(videos.error);
    }
    var trailers := CollectTrailers(videos.value);
    if trailers != [] {
      d := d["trailer_url" := JStr(YouTubeWatch + trailers[LargestIndex(trailers)].key)];
    } else {
      d := d["trailer_url" := JNull];
    }
    r := Success(d);
  }

  method CleanCredits(d: map<string, Json>, tmdbData: MovieRecord) returns (r: Result<map<string, Json>, Error>)
    ensures r == CreditsStage(d, tmdbData)
  {
    var d := d;
    d := d["imdb_url" := ImdbUrl(tmdbData.imdbId)];
    d := (d - {"overview"})["synopsis" := StrOrNull(tmdbData.overview)];
    d := d["release_date" := StrOrNull(tmdbData.releaseDate)];
    var credits := Subscript(tmdbData.credits, "credits");
    if credits.Failure? {
      return Failure(credits.error);
    }
    var castList := CollectCredited(credits.value.cast);
    d := (d - {"cast_list"})["cast" := JStr(Join(Take(castList.GetOr([]), 10), ", "))];
    d := d["country_of_origin" := FirstCountry(tmdbData.productionCountries)];
    var releases := Subscript(tmdbData.releaseDates, "release_dates");
    if releases.Failure? {
      return Failure(releases.error);
    }
    var rating := ContentRatingLoop(releases.value);
    if rating.Some? {
      d := d["content_rating" := rating.value];
    }
    r := Success(d);
  }

  method CleanImages(d: map<string, Json>, tmdbData: MovieRecord) returns (r: Result<map<string, Json>, Error>)
    ensures r == ImageStage(d, tmdbData)
  {
    var d := d;
    d := d["poster_path" := PosterUrl(tmdbData.posterPath)];
    d := d["status" := StrOrNull(tmdbData.status)];
    d := d["original_title" := OriginalTitleValue(d)];
    var backdrop := ImageUrl(tmdbData.backdropPath, "backdrop_path");
    if backdrop.Failure? {
      return Failure(backdrop.error);
    }
    r := Success(d["backdrop_path" := JStr(backdrop.value)]);
  }

  /** `clean_media_data(tmdb_data, media_type)`: the raw dict is rewritten in
      program order, and the first exception raised ends the call. */
  method CleanMediaData(tmdbData: MovieRecord, mediaType: string) returns (r: Result<map<string, Json>, Error>)
    ensures r == Cleaned(tmdbData, mediaType)
    ensures r.Success? ==> forall k :: k in r.value ==> k in Whitelist && r.value[k] != JNull
  {
    var d := AsDict(tmdbData);
    if mediaType == "movie" {
      var step := CleanCrew(d, tmdbData);
      if step.Failure? {
        return Failure(step.error);
      }
      step := CleanMedia(step.value, tmdbData);
      if step.Failure? {
        return Failure(step.error);
      }
      step := CleanCredits(step.value, tmdbData);
      if step.Failure? {
        return Failure(step.error);
      }
      step := CleanImages(step.value, tmdbData);
      if step.Failure? {
        return Failure(step.error);
      }
      d := step.value;
    }
    d := RemoveUnwanted(d);
    r := Success(d);
  }

  /** What `fetch_media_details` yields for a search result: None for a
      media type other than movie or tv, whose ValueError it logs and
      swallows; otherwise what `fetch` yields for it, None standing for a
      fetch whose ValueError was swallowed. */
  function FetchDetails(result: SearchResult, fetch: SearchResult -> Option<MovieRecord>): (r: Option<MovieRecord>)
    ensures result.mediaType != "movie" && result.mediaType != "tv" ==> r.None?
    ensures result.mediaType == "movie" || result.mediaType == "tv" ==> r == fetch(result)
  {
    if result.mediaType == "movie" || result.mediaType == "tv" then fetch(result) else None
  }

  /** `get_cleaned_media_data(title)` given the search results: no result is
      a ValueError; otherwise the first result is fetched and cleaned. The
      cleaned dict is not returned (the return statement is commented out),
      so success carries no value. Cleaning the None of a swallowed fetch
      fails on its first dict operation. */
  function GetCleanedMediaData(searchResults: seq<SearchResult>, fetch: SearchResult -> Option<MovieRecord>): (r: Result<(), Error>)
    ensures searchResults == [] ==> r == Failure(ValueError("No TMDb results found for the title."))
    ensures searchResults != [] && FetchDetails(searchResults[0], fetch).None? ==> r == Failure(AttributeError("NoneType"))
    ensures searchResults != [] && searchResults[0].mediaType != "movie" && searchResults[0].mediaType != "tv" ==>
      r == Failure(AttributeError("NoneType"))
    ensures r.Success? <==>
      && searchResults != []
      && FetchDetails(searchResults[0], fetch).Some?
      && Cleaned(FetchDetails(searchResults[0], fetch).value, searchResults[0].mediaType).Success?
  {
    if searchResults == [] then Failure(ValueError("No TMDb results found for the title."))
    else
      var raw := FetchDetails(searchResults[0], fetch);
      if raw.None? then Failure(AttributeError("NoneType"))
      else
        var _ :- Cleaned(raw.value, searchResults[0].mediaType);
        Success(())
  }
}
