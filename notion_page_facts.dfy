/** What `update_notion_page` promises of the properties it sends. */
module NotionPageFacts {
  import opened Wrappers
  import opened PyData
  import opened TmdbRecord
  import opened Extraction
  import opened TmdbHandler
  import opened MovieData
  import opened NotionPage

  /** The property map fails exactly on a genre list that is missing or
      null, or on an original-language code the table lacks; genres are
      read first. */
  lemma NotionErrors(data: MovieData, languages: map<string, string>)
    ensures NotionProperties(data, languages).Success? <==>
      data.raw.genres.Has? && LanguageName(data.raw.originalLanguage, languages).Success?
    ensures !data.raw.genres.Has? ==> NotionProperties(data, languages) == Failure(TypeError("genres"))
    ensures data.raw.genres.Has? && data.raw.originalLanguage.Null? ==>
      NotionProperties(data, languages) == Failure(KeyError("None"))
    ensures data.raw.genres.Has? && data.raw.originalLanguage.Has? && data.raw.originalLanguage.value !in languages ==>
      NotionProperties(data, languages) == Failure(KeyError(data.raw.originalLanguage.value))
  {
  }

  /** The four default properties carry their fixed values. */
  lemma NotionDefaults(data: MovieData, languages: map<string, string>)
    requires NotionProperties(data, languages).Success?
    ensures var r := NotionProperties(data, languages).value;
      && WatchStatus in r && r[WatchStatus] == SelectProp(JStr("Unwatched"))
      && Rewatch in r && r[Rewatch] == CheckboxProp(false)
      && Rating in r && r[Rating] == SelectProp(JStr(RatingDefault))
      && Format in r && r[Format] == SelectProp(JStr("Unowned"))
  {
    PropertyAt(data, languages, WatchStatus);
    PropertyAt(data, languages, Rewatch);
    PropertyAt(data, languages, Rating);
    PropertyAt(data, languages, Format);
    DefaultProperties(data, GenreOptions(data.raw.genres).value, LanguageName(data.raw.originalLanguage, languages).value);
  }

  lemma DefaultProperties(data: MovieData, genres: seq<string>, language: string)
    ensures Property(data, genres, language, WatchStatus) == Some(SelectProp(JStr("Unwatched")))
    ensures Property(data, genres, language, Rewatch) == Some(CheckboxProp(false))
    ensures Property(data, genres, language, Rating) == Some(SelectProp(JStr(RatingDefault)))
    ensures Property(data, genres, language, Format) == Some(SelectProp(JStr("Unowned")))
  {
  }

  /** The property `k` sent, as the dict literal gives it. */
  lemma PropertyAt(data: MovieData, languages: map<string, string>, k: Column)
    requires NotionProperties(data, languages).Success?
    ensures GenreOptions(data.raw.genres).Success? && LanguageName(data.raw.originalLanguage, languages).Success?
    ensures var p := Property(data, GenreOptions(data.raw.genres).value,
                              LanguageName(data.raw.originalLanguage, languages).value, k);
      var r := NotionProperties(data, languages).value;
      (k in r <==> k in PropertyKeys && p.Some?) && (k in r ==> r[k] == p.value)
  {
  }

  /** The five conditional properties are sent exactly when their condition
      holds: a truthy rating, IMDb id, release date or country list, and an
      original title that differs from the title. */
  lemma NotionConditional(data: MovieData, languages: map<string, string>)
    requires NotionProperties(data, languages).Success?
    ensures var r := NotionProperties(data, languages).value;
      var raw := data.raw;
      && (TmdbRating in r <==> raw.voteAverage.Has? && raw.voteAverage.value != 0.0)
      && (ImdbPage in r <==> TruthyStr(raw.imdbId))
      && (Released in r <==> TruthyStr(raw.releaseDate))
      && (CountryOfOrigin in r <==> raw.productionCountries.Has? && raw.productionCountries.value != [])
      && (OriginalTitle in r <==> raw.originalTitle.Get() != raw.title.Get())
  {
    PropertyAt(data, languages, TmdbRating);
    PropertyAt(data, languages, ImdbPage);
    PropertyAt(data, languages, Released);
    PropertyAt(data, languages, CountryOfOrigin);
    PropertyAt(data, languages, OriginalTitle);
    ConditionalProperties(data, GenreOptions(data.raw.genres).value, LanguageName(data.raw.originalLanguage, languages).value);
  }

  lemma ConditionalProperties(data: MovieData, genres: seq<string>, language: string)
    ensures var raw := data.raw;
      && (Property(data, genres, language, TmdbRating).Some? <==> raw.voteAverage.Has? && raw.voteAverage.value != 0.0)
      && (Property(data, genres, language, ImdbPage).Some? <==> TruthyStr(raw.imdbId))
      && (Property(data, genres, language, Released).Some? <==> TruthyStr(raw.releaseDate))
      && (Property(data, genres, language, CountryOfOrigin).Some? <==>
            raw.productionCountries.Has? && raw.productionCountries.value != [])
      && (Property(data, genres, language, OriginalTitle).Some? <==> raw.originalTitle.Get() != raw.title.Get())
  {
  }

  /** The list-valued properties: the genre names in order, the provider
      names, and the original language's display name. */
  lemma NotionValues(data: MovieData, languages: map<string, string>)
    requires NotionProperties(data, languages).Success?
    ensures data.raw.genres.Has?
    ensures var r := NotionProperties(data, languages).value;
      var gs := data.raw.genres.value;
      && Genres in r && r[Genres].MultiSelectProp?
      && |r[Genres].names| == |gs|
      && (forall i :: 0 <= i < |gs| ==> r[Genres].names[i] == gs[i].name)
      && Vod in r && r[Vod] == MultiSelectProp(data.providers)
      && OriginalLanguage in r && r[OriginalLanguage] == SelectProp(JStr(LanguageName(data.raw.originalLanguage, languages).value))
  {
    PropertyAt(data, languages, Genres);
    PropertyAt(data, languages, Vod);
    PropertyAt(data, languages, OriginalLanguage);
    ListProperties(data, GenreOptions(data.raw.genres).value, LanguageName(data.raw.originalLanguage, languages).value);
  }

  lemma ListProperties(data: MovieData, genres: seq<string>, language: string)
    ensures Property(data, genres, language, Genres) == Some(MultiSelectProp(genres))
    ensures Property(data, genres, language, Vod) == Some(MultiSelectProp(data.providers))
    ensures Property(data, genres, language, OriginalLanguage) == Some(SelectProp(JStr(language)))
  {
  }

  /** The crew and cast properties: the names joined with ", ", or "" when
      the list is absent. */
  lemma NotionCredits(data: MovieData, languages: map<string, string>)
    requires NotionProperties(data, languages).Success?
    ensures var r := NotionProperties(data, languages).value;
      && Director in r && r[Director] == RichTextProp(JStr(if data.directors.Some? then Join(data.directors.value, ", ") else ""))
      && Producer in r && r[Producer] == RichTextProp(JStr(if data.producers.Some? then Join(data.producers.value, ", ") else ""))
      && Cast in r && r[Cast] == RichTextProp(JStr(if data.cast.Some? then Join(data.cast.value, ", ") else ""))
  {
    PropertyAt(data, languages, Director);
    PropertyAt(data, languages, Producer);
    PropertyAt(data, languages, Cast);
    CreditProperties(data, GenreOptions(data.raw.genres).value, LanguageName(data.raw.originalLanguage, languages).value);
  }

  lemma CreditProperties(data: MovieData, genres: seq<string>, language: string)
    ensures Property(data, genres, language, Director) == Some(RichTextProp(JStr(Join(data.directors.GetOr([]), ", "))))
    ensures Property(data, genres, language, Producer) == Some(RichTextProp(JStr(Join(data.producers.GetOr([]), ", "))))
    ensures Property(data, genres, language, Cast) == Some(RichTextProp(JStr(Join(data.cast.GetOr([]), ", "))))
  {
  }
}
