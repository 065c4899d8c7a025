/** `main.update_notion_page` (main.py): the Notion property map built from
    the dict `get_movie_data` returns, the filter that drops the properties
    whose conditional gave None, and the three page updates. The Notion
    client is left out; the updates are recorded as calls. */
module NotionPage {
  import opened Wrappers
  import opened PyData
  import opened TmdbRecord
  import opened TmdbHandler
  import opened MovieData

  /** One Notion property value, named by the key that carries its payload.
      Title and rich text wrap their content in a single text run; select
      wraps a name; multi-select holds one name object per name; date wraps
      a start date; files holds a single external file named "Poster" at the
      given URL; number, URL and checkbox hold their value directly. */
  datatype Prop =
    | TitleProp(content: Json)
    | SelectProp(name: Json)
    | NumberProp(number: Json)
    | RichTextProp(content: Json)
    | MultiSelectProp(names: seq<string>)
    | UrlProp(url: Json)
    | DateProp(start: string)
    | FilesProp(url: Json)
    | CheckboxProp(checked: bool)

  /** The properties of the watchlist database that `update_notion_page`
      writes, one per key of its dict literal; `Name` gives the key. */
  datatype Column =
    | Title | Type | TmdbRating | Director | Genres | Runtime | Vod | Trailer
    | ImdbPage | Synopsis | Released | Cast | Producer | CountryOfOrigin
    | ContentRating | ImdbId | Poster | Episodes | Seasons | Status
    | OriginalLanguage | OriginalTitle | WatchStatus | Rewatch | Rating | Format

  /** The Notion property name of a column. */
  function Name(c: Column): string {
    match c
    case Title => "Title"
    case Type => "Type"
    case TmdbRating => "TMDB Rating"
    case Director => "Director"
    case Genres => "Genre"
    case Runtime => "Runtime"
    case Vod => "VOD"
    case Trailer => "Trailer"
    case ImdbPage => "IMDb Page"
    case Synopsis => "Synopsis"
    case Released => "Release Date"
    case Cast => "Cast"
    case Producer => "Producer"
    case CountryOfOrigin => "Country of Origin"
    case ContentRating => "Content Rating"
    case ImdbId => "IMDb ID"
    case Poster => "Poster"
    case Episodes => "Episodes"
    case Seasons => "Seasons"
    case Status => "Status"
    case OriginalLanguage => "Original Language"
    case OriginalTitle => "Original Title"
    case WatchStatus => "Watch Status"
    case Rewatch => "Rewatch"
    case Rating => "Rating"
    case Format => "Format"
  }

  /** One write to Notion: the property update, then the icon, then the cover. */
  datatype Call =
    | UpdateProperties(pageId: string, properties: map<Column, Prop>)
    | SetIcon(pageId: string, url: string)
    | SetCover(pageId: string, url: string)

  /** The default Rating option, the text the source holds for it: the
      shrug emoji as a Mac OS Roman reading of its UTF-8 bytes. */
  const RatingDefault: string :=
    "\U{F8FF}\U{00FC}\U{00A7}\U{2211}\U{201A}\U{00C4}\U{00E7}\U{201A}\U{00F4}\U{00C7}\U{00D4}\U{220F}\U{00E8}"

  /** The properties whose conditional may give None. */
  const OptionalKeys: set<Column> := { TmdbRating, ImdbPage, Released, CountryOfOrigin, OriginalTitle }

  /** The properties present whatever the record holds. */
  const AlwaysKeys: set<Column> := {
    Title, Type, Director, Genres, Runtime, Vod, Trailer, Synopsis, Cast,
    Producer, ContentRating, ImdbId, Poster, Episodes, Seasons, Status,
    OriginalLanguage, WatchStatus, Rewatch, Rating, Format }

  /** The Genre options, one per genre name, read from the genre list with
      no default: iterating None raises TypeError. */
  function GenreOptions(g: Slot<seq<TmdbRecord.Genre>>): Result<seq<string>, Error> {
    if g.Has? then Success(GenreNames(g.value)) else Failure(TypeError("genres"))
  }

  /** The language table indexed by the original-language code, the code
      read with "" as its default: an absent code looks up "", a null one
      looks up None; a code the table lacks raises KeyError. */
  function LanguageName(code: Slot<string>, languages: map<string, string>): (r: Result<string, Error>)
    ensures r.Success? <==> (code.Missing? && "" in languages) || (code.Has? && code.value in languages)
  {
    match code
    case Null => Failure(KeyError("None"))
    case Missing => if "" in languages then Success(languages[""]) else Failure(KeyError(""))
    case Has(c) => if c in languages then Success(languages[c]) else Failure(KeyError(c))
  }

  function OptionJson(s: Option<string>): Json {
    if s.Some? then JStr(s.value) else JNull
  }

  /** The truthiness filter over the property dict: every property object is
      a non-empty dict, so only None is dropped. */
  function Present(m: map<Column, Option<Prop>>): (r: map<Column, Prop>)
    ensures forall k :: k in r <==> k in m && m[k].Some?
    ensures forall k :: k in r ==> r[k] == m[k].value
  {
    map k | k in m && m[k].Some? :: m[k].value
  }

  /** The keys of the dict literal. */
  const PropertyKeys: set<Column> := AlwaysKeys + OptionalKeys

  /** The value the dict literal of `update_notion_page(page_id, tmdb_data)`
      gives the property `c`, given the genre names and the language name
      its two failing reads produced; None where its conditional gave None.
      Only the five conditional properties can be None. */
  function Property(data: MovieData, genres: seq<string>, language: string, c: Column): (r: Option<Prop>)
    ensures c in AlwaysKeys ==> r.Some?
  {
    var raw := data.raw;
    match c
    case Title => Some(TitleProp(StrOrNull(raw.title)))
    case Type => Some(SelectProp(JStr(data.mediaType)))
    case TmdbRating =>
      if raw.voteAverage.Has? && raw.voteAverage.value != 0.0 then Some(NumberProp(JNum(raw.voteAverage.value))) else None
    case Director => Some(RichTextProp(JStr(Join(data.directors.GetOr([]), ", "))))
    case Genres => Some(MultiSelectProp(genres))
    case Runtime => Some(NumberProp(IntOrNull(raw.runtime)))
    case Vod => Some(MultiSelectProp(data.providers))
    case Trailer => Some(UrlProp(OptionJson(data.trailerUrl)))
    case ImdbPage =>
      if TruthyStr(raw.imdbId) then Some(UrlProp(JStr(ImdbTitle + raw.imdbId.value + "/"))) else None
    case Synopsis => Some(RichTextProp(StrOrEmpty(raw.overview)))
    case Released =>
      if TruthyStr(raw.releaseDate) then Some(DateProp(raw.releaseDate.value)) else None
    case Cast => Some(RichTextProp(JStr(Join(data.cast.GetOr([]), ", "))))
    case Producer => Some(RichTextProp(JStr(Join(data.producers.GetOr([]), ", "))))
    case CountryOfOrigin =>
      if raw.productionCountries.Has? && raw.productionCountries.value != [] then
        Some(RichTextProp(JStr(raw.productionCountries.value[0].name)))
      else None
    case ContentRating => Some(SelectProp(OptionJson(data.contentRating)))
    case ImdbId => Some(RichTextProp(StrOrEmpty(raw.imdbId)))
    case Poster => Some(FilesProp(JStr(data.posterPath)))
    case Episodes => Some(NumberProp(Lookup(raw.others, "number_of_episodes")))
    case Seasons => Some(NumberProp(Lookup(raw.others, "number_of_seasons")))
    case Status => Some(SelectProp(StrOrEmpty(raw.status)))
    case OriginalLanguage => Some(SelectProp(JStr(language)))
    case OriginalTitle =>
      if raw.originalTitle.Get() != raw.title.Get() then Some(RichTextProp(OptionJson(raw.originalTitle.Get()))) else None
    case WatchStatus => Some(SelectProp(JStr("Unwatched")))
    case Rewatch => Some(CheckboxProp(false))
    case Rating => Some(SelectProp(JStr(RatingDefault)))
    case Format => Some(SelectProp(JStr("Unowned")))
  }

  /** The property map before the filter. The two failing reads are
      evaluated in dict-literal order: Genre first, Original Language
      second. */
  function PropertyMap(data: MovieData, languages: map<string, string>): Result<map<Column, Option<Prop>>, Error> {
    var genres :- GenreOptions(data.raw.genres);
    var language :- LanguageName(data.raw.originalLanguage, languages);
    Success(map c | c in PropertyKeys :: Property(data, genres, language, c))
  }

  /** The properties sent to Notion. Building them fails exactly on a genre
      list that is missing or null, or on an original-language code the
      table lacks. The 21 unconditional properties are always sent, and
      nothing outside the dict literal is. */
  function NotionProperties(data: MovieData, languages: map<string, string>): (r: Result<map<Column, Prop>, Error>)
    ensures r.Success? <==> data.raw.genres.Has? && LanguageName(data.raw.originalLanguage, languages).Success?
    ensures r.Success? ==> AlwaysKeys <= r.value.Keys && r.value.Keys <= PropertyKeys
  {
    var m :- PropertyMap(data, languages);
    Success(Present(m))
  }

  /** `update_notion_page(page_id, tmdb_data)`: the three writes, or the
      exception raised while building the properties, before any write. The
      writes send the properties, then set the icon to the poster link and
      the cover to the backdrop link. */
  function UpdateNotionPage(pageId: string, data: MovieData, languages: map<string, string>): (r: Result<seq<Call>, Error>)
    ensures r.Success? <==> NotionProperties(data, languages).Success?
    ensures r.Success? ==> |r.value| == 3 && forall c :: c in r.value ==> c.pageId == pageId
    ensures r.Success? ==> r.value[0].UpdateProperties? && r.value[1].SetIcon? && r.value[2].SetCover?
    ensures r.Success? ==> r.value == [UpdateProperties(pageId, NotionProperties(data, languages).value),
                                       SetIcon(pageId, data.posterPath), SetCover(pageId, data.backdropPath)]
  {
    var props :- NotionProperties(data, languages);
    Success([UpdateProperties(pageId, props), SetIcon(pageId, data.posterPath), SetCover(pageId, data.backdropPath)])
  }
}
