# Notion watchlist automation: the TMDb record normaliser

This project models the core of a small Python tool that fills a Notion
watchlist from The Movie Database (TMDb). Entries whose title ends in `;`
are pending. For each one the tool:

1. searches TMDb for the title and takes the first result;
2. fetches the full movie record;
3. normalises it into a flat dict;
4. writes that dict to the Notion page as properties, then sets the page's icon and cover.

The model covers these parts of the source:

- `TMDBHandler.clean_media_data`: the newer normaliser. It rewrites the raw record in place, then deletes every key outside a 22-name whitelist and every key holding `None`.
- `TMDBHandler.get_cleaned_media_data`: the search-then-clean wrapper.
- `main.get_movie_data`: the older normaliser the driver actually uses. It adds derived keys and removes none.
- `main.update_notion_page`: the Notion property map, the filter that drops `None` properties, and the three page writes.
- The query filter of `get_notion_entries`, the first-result rule of `search_tmdb`, and the per-entry loop of `main()`.

## How Python is modelled

- **Python dicts.** A raw record is a `TmdbRecord.MovieRecord`. Each field the code reads is a `Slot`:
  - `Missing`: the key is absent;
  - `Null`: the key holds `None`;
  - `Has(v)`: the key holds a value.

  The other keys are kept in a plain map.
- **Dict operations.**
  - `d.get(k)` cannot tell `Missing` from `Null`.
  - `d[k]` on a missing key is a `KeyError`.
  - Iterating `None`, or subscripting it, is a `TypeError`.
  - Calling a method on `None` is an `AttributeError`.

  Each operation returns a `Result` whose error is the Python exception it would raise.
- **The dict being rewritten.** `TmdbRecord.AsDict` gives `clean_media_data`'s dict as a `map<string, Json>`. The four blocks of the movie branch are functions on that map:
  - `CrewStage`: title through producers;
  - `MediaStage`: genres through trailer;
  - `CreditsStage`: IMDb link through content rating;
  - `ImageStage`: poster through backdrop.

  The whitelist loop is `Filtered`.
- **Loops as methods.** Every loop of the source is a method with a `while` loop, proved equal to a specification function. The blocks are methods too (`CleanCrew` and the others), and so is the driver loop (`SyncDriver.RunSync`).
- **Collaborators.**
  - The network calls become parameters: the TMDb search gives a result list, and the fetch gives a record.
  - The Notion writes are returned as a trace of `NotionPage.Call` values.
  - The ISO-639-1 language table loaded from JSON is a map parameter.
- **Notion properties.** The keys of `update_notion_page`'s dict literal are the constructors of `NotionPage.Column`. `NotionPage.Name` gives each one's Notion property name.

## Model

| member | source | states |
|---|---|---|
| TmdbHandler.CleanMediaData | utils/TMDBHandler.py:84-291 | The result is the specification `Cleaned` of the record and media type. On success every key left is whitelisted and holds a non-None value |
| TmdbHandler.RemoveUnwanted | utils/TMDBHandler.py:264-289 | A key survives iff it was in the dict, is whitelisted and is not None. Surviving keys keep their values |
| TmdbHandler.CleanCrew | utils/TMDBHandler.py:90-113 | The title, type, tagline, rating and crew block equals the stage specification `CrewStage` |
| TmdbHandler.CleanMedia | utils/TMDBHandler.py:115-172 | The genres, runtime, providers and trailer block equals `MediaStage` |
| TmdbHandler.CleanCredits | utils/TMDBHandler.py:174-212 | The IMDb, synopsis, release, cast, country and content-rating block equals `CreditsStage` |
| TmdbHandler.CleanImages | utils/TMDBHandler.py:214-259 | The poster, status, original-title and backdrop block equals `ImageStage` |
| TmdbHandler.ProviderLoop | utils/TMDBHandler.py:124-153 | The loop equals `ProviderField`: at the first truthy entry it builds the whole name list, failing with what the first falsy entry raises (KeyError for an empty object, TypeError for null); `ProviderFieldSpec` states when it fails and the key it sets |
| TmdbHandler.CollectTrailers | utils/TMDBHandler.py:158-165 | The collected list is exactly the US YouTube trailers, in order |
| TmdbHandler.LargestIndex | utils/TMDBHandler.py:167-170 | `max(..., key=size)` picks a trailer whose size is at least every other's, and the first among equals |
| TmdbHandler.ContentRatingLoop | utils/TMDBHandler.py:206-212 | The loop leaves the last US release date's certification, or None if that one is empty; the key stays unset when there is no US date |
| TmdbHandler.ImageUrl | main.py:189-194 | A missing image key raises KeyError with that key; otherwise the URL is the image base followed by the formatted value (`None` included) |
| TmdbHandler.FetchDetails | utils/TMDBHandler.py:54-82 | A media type other than movie or tv yields None, its ValueError being swallowed; otherwise the fetched record |
| TmdbHandler.GetCleanedMediaData | utils/TMDBHandler.py:297-312 | No search results raise ValueError with the source's message. A fetch that gives None, in particular for a first result neither movie nor tv, raises AttributeError. It succeeds iff the first result's record was fetched and cleaned without error. Nothing is returned |
| TmdbHandlerFacts.CrewStageKeeps | utils/TMDBHandler.py:90-113 | The crew block leaves every key it does not write unchanged |
| TmdbHandlerFacts.CrewStageShape | utils/TMDBHandler.py:90-94 | After the crew block, title holds the raw title (None when absent) and type the capitalised media type |
| TmdbHandlerFacts.CrewStageTagline | utils/TMDBHandler.py:96-103 | After the crew block, tagline holds the raw tagline and tmdb_rating the vote average when truthy, None otherwise |
| TmdbHandlerFacts.CrewStageNames | utils/TMDBHandler.py:105-113 | After the crew block, directors and producers hold the ", "-joined names of the crew with that job |
| TmdbHandlerFacts.MediaStageKeeps | utils/TMDBHandler.py:115-172 | The media block leaves every key it does not write unchanged |
| TmdbHandlerFacts.MediaStageShape | utils/TMDBHandler.py:115-172 | After the media block: genres, runtime and trailer hold their values; the provider keys are set only as the provider loops decide |
| TmdbHandlerFacts.CreditsStageKeeps | utils/TMDBHandler.py:174-212 | The credits block leaves every key it does not write or pop unchanged |
| TmdbHandlerFacts.CreditsStageShape | utils/TMDBHandler.py:174-212 | After the credits block: IMDb URL, synopsis, release date, cast, country and certification hold their values, and the popped cast_list is gone |
| TmdbHandlerFacts.ImageStageKeeps | utils/TMDBHandler.py:214-259 | The image block leaves every key it does not write unchanged |
| TmdbHandlerFacts.ImageStageShape | utils/TMDBHandler.py:214-259 | After the image block: the poster and backdrop URLs, the status and the original title (None when equal to the title) hold their values |
| TmdbHandlerFacts.MovieStages | utils/TMDBHandler.py:88-259 | A successful movie branch is the four blocks run in sequence, each succeeding |
| TmdbHandlerFacts.KeptAfterCrew | utils/TMDBHandler.py:115-259 | A key the last three blocks do not write or pop holds what the crew block left |
| TmdbHandlerFacts.KeptAfterMedia | utils/TMDBHandler.py:174-259 | A key the last two blocks do not write or pop holds what the media block left |
| TmdbHandlerFacts.MovieCrewValues | utils/TMDBHandler.py:90-113 | The crew block's values survive in the finished movie branch |
| TmdbHandlerFacts.MovieMediaValues | utils/TMDBHandler.py:115-172 | The media block's values survive in the finished movie branch |
| TmdbHandlerFacts.MovieCreditsValues | utils/TMDBHandler.py:174-212 | The credits block's values survive in the finished movie branch |
| TmdbHandlerFacts.MovieImageValues | utils/TMDBHandler.py:214-259 | The image block's values, and every key no block writes or pops, are as the last block left them |
| CleanMediaFacts.ProviderFieldSpec | utils/TMDBHandler.py:124-153 | The provider loop fails iff the list holds both a truthy and a falsy entry. It then raises what the first falsy entry raises: KeyError("provider_name") for an empty object, TypeError for null. It sets its key iff the list is non-empty and all truthy, to one name object per provider, in order |
| CleanMediaFacts.USTrailersMembers | utils/TMDBHandler.py:158-165 | A video is collected iff it is in the list and is a US YouTube trailer |
| CleanMediaFacts.FilteredEntry | utils/TMDBHandler.py:264-289 | A key survives the filter iff it is whitelisted and not None, and then it keeps its value |
| CleanMediaFacts.DerivedAbsent | utils/TMDBHandler.py:131-212 | The raw dict holds no streaming, watch_free or content_rating key; only the loops can set them |
| CleanMediaFacts.OriginalLanguageEntry | utils/TMDBHandler.py:245-247 | original_language passes through untouched: present iff the raw key is present |
| CleanMediaFacts.OriginalTitleEntry | utils/TMDBHandler.py:250-254 | The original title is None when it equals the title (a missing one compares as "") |
| CleanMediaFacts.FilteredTitle | utils/TMDBHandler.py:90-103 | The type is "Movie". Title and tagline are present iff the raw value is not None. The rating is present iff the vote average is truthy |
| CleanMediaFacts.FilteredDetails | utils/TMDBHandler.py:174-203 | The IMDb URL appears iff the id is truthy. Synopsis and release date appear iff not None, each with the raw value. The country appears iff the countries are non-empty, and is the first country's name |
| CleanMediaFacts.FilteredCrew | utils/TMDBHandler.py:105-113 | directors and producers are the ", "-joined names of the crew with that job, in crew order |
| CleanMediaFacts.FilteredCast | utils/TMDBHandler.py:187-195 | cast is the ", "-join of the first ten credited acting names |
| CleanMediaFacts.ProviderEntryOf | utils/TMDBHandler.py:124-153 | A provider key's value survives the filter as the named provider list |
| CleanMediaFacts.FilteredProviders | utils/TMDBHandler.py:124-153 | streaming and watch_free appear iff some US flatrate or free provider is truthy, each as the complete name list. Both are absent when the US region is missing |
| CleanMediaFacts.TrailerEntryOf | utils/TMDBHandler.py:167-172 | The trailer value survives the filter and keeps its properties |
| CleanMediaFacts.FilteredTrailer | utils/TMDBHandler.py:158-172 | trailer_url appears iff some video is a US YouTube trailer. It is then the watch link of such a trailer with the largest size, the first of them in list order as `max` picks |
| CleanMediaFacts.FilteredContentRating | utils/TMDBHandler.py:205-212 | content_rating appears iff the last US release date has a non-empty certification; it is that certification |
| CleanMediaFacts.FilteredImages | utils/TMDBHandler.py:214-259 | poster_path appears iff it is truthy. backdrop_path is always present. status, original_title and original_language are present iff not None; status and original_language keep their raw values |
| CleanMediaFacts.FilteredGenres | utils/TMDBHandler.py:115-121 | genres is the name-only copy of the genre list (empty when absent); runtime appears iff not None, with the raw value |
| CleanMediaFacts.CleanedMovie | utils/TMDBHandler.py:84-291 | The movie case of `clean_media_data` is the whitelist filter applied to the four blocks |
| CleanMediaFacts.CleanedTitle | utils/TMDBHandler.py:90-103 | As `FilteredTitle`, for `clean_media_data` itself |
| CleanMediaFacts.CleanedDetails | utils/TMDBHandler.py:174-203 | As `FilteredDetails`, for `clean_media_data` itself |
| CleanMediaFacts.CrewErrors | utils/TMDBHandler.py:105-113 | Missing credits raise KeyError and None credits raise TypeError. No director, or directors but no producer, raises TypeError from `join(None)` |
| CleanMediaFacts.CleanedCrew | utils/TMDBHandler.py:105-113 | As `FilteredCrew`, for `clean_media_data` itself |
| CleanMediaFacts.CleanedCast | utils/TMDBHandler.py:187-195 | As `FilteredCast`, for `clean_media_data` itself |
| CleanMediaFacts.CleanedProviders | utils/TMDBHandler.py:124-153 | As `FilteredProviders`, for `clean_media_data` itself |
| CleanMediaFacts.CleanedTrailer | utils/TMDBHandler.py:158-172 | As `FilteredTrailer`, for `clean_media_data` itself |
| CleanMediaFacts.CleanedContentRating | utils/TMDBHandler.py:205-212 | As `FilteredContentRating`, for `clean_media_data` itself |
| CleanMediaFacts.ContentRatingExamples | utils/TMDBHandler.py:205-212 | US dates "", "PG-13", "", "R" give "R". A final empty certification gives None, which the filter drops |
| CleanMediaFacts.CleanedImages | utils/TMDBHandler.py:214-259 | As `FilteredImages`, for `clean_media_data` itself. original_language is the raw code when present and not None |
| CleanMediaFacts.CleanedGenres | utils/TMDBHandler.py:115-121 | As `FilteredGenres`, for `clean_media_data` itself |
| CleanMediaFacts.CrewStageSucceeds | utils/TMDBHandler.py:90-113 | The crew block succeeds iff the credits are present and the crew holds at least one Director and one Producer |
| CleanMediaFacts.MediaStageSucceeds | utils/TMDBHandler.py:115-172 | The media block succeeds iff genres and providers are not None, neither US provider list mixes truthy entries with falsy ones (empty objects or nulls), and the videos are present |
| CleanMediaFacts.CreditsStageSucceeds | utils/TMDBHandler.py:174-212 | The credits block succeeds iff the credits and release dates are present |
| CleanMediaFacts.ImageStageSucceeds | utils/TMDBHandler.py:214-259 | The image block succeeds iff the backdrop key is present |
| CleanMediaFacts.CleanedSucceeds | utils/TMDBHandler.py:84-291 | `clean_media_data` on a movie succeeds iff the record meets every block's requirement |
| CleanMediaFacts.NonMovieOwnKeys | utils/TMDBHandler.py:261-289 | For any media type but "movie", the call succeeds and only filters: a raw key outside the modelled fields survives iff it is whitelisted and not None, with its raw value. A TV record's own `type` is kept this way |
| CleanMediaFacts.NonMovieOnlyFilters | utils/TMDBHandler.py:261-289 | For any media type but "movie", raw entries pass the filter unconverted: genres keep their ids, the poster is a bare path, the title is present iff not None |
| CleanMediaFacts.LargestTrailerExample | utils/TMDBHandler.py:167-170 | Sizes 480, 1080, 720 pick the 1080 trailer. Sizes 1080, 720, 1080 pick the first of the two 1080s |
| Extraction.Subscript | utils/TMDBHandler.py:106 | `d[k]` succeeds iff the value is present; a missing key raises KeyError with that key |
| Extraction.USProviders | utils/TMDBHandler.py:124-128 | No US region gives empty provider lists |
| Extraction.NonEmpty | utils/TMDBHandler.py:108-110 | A list created by `setdefault(...).append` exists iff at least one name was appended |
| Extraction.ProviderNamesSpec | main.py:204-210 | The rent-name list succeeds iff every provider is named, and is then their names in order. Otherwise it raises what the first falsy entry raises: KeyError("provider_name") for an empty object, TypeError for null |
| Extraction.ProviderNamesExample | main.py:204-210 | Netflix then null raises TypeError, Netflix then an empty object raises KeyError, and Netflix then Hulu gives both names |
| Extraction.CollectCrew | main.py:164-168 | The loop builds the director and producer lists (None when empty) of the crew, in order |
| Extraction.CollectCredited | main.py:171-176 | The loop builds the list (None when empty) of credited acting names, in order |
| Extraction.CrewNamesAppend | utils/TMDBHandler.py:106-110 | Collecting over a concatenation concatenates the collected names |
| Extraction.CrewNamesMembers | utils/TMDBHandler.py:106-110 | A name is collected for a job iff some crew member with that job has that name |
| Extraction.CrewRolesDisjoint | utils/TMDBHandler.py:106-110 | Together the director and producer lists are no longer than the crew, since each member has one job |
| Extraction.CreditedNamesAppend | utils/TMDBHandler.py:188-193 | Collecting over a concatenation concatenates the collected names |
| Extraction.CreditedNamesMembers | utils/TMDBHandler.py:188-193 | A name is collected iff some credited acting member has that name |
| Extraction.CrewExample | utils/TMDBHandler.py:106-110 | Director A, producer B and director C give directors [A, C] and producers [B] |
| MovieData.GetMovieData | main.py:154-212 | The method equals `MovieDataOf`, failing at the first exception in program order |
| MovieData.ContentRatingLoop | main.py:178-186 | The nested loop with its two breaks equals `FirstUSCertification` |
| MovieData.OfficialTrailerLoop | main.py:196-201 | The loop leaves the key of the last official video |
| MovieDataFacts.FirstCertificationSpec | main.py:181-184 | No certification iff all dates are empty. Otherwise it is the first non-empty one, and all earlier ones are empty |
| MovieDataFacts.FirstUSCertificationSpec | main.py:178-186 | No US region gives no rating. Otherwise the first US region alone decides: its first non-empty certification, or KeyError("content_rating") when it has none |
| MovieDataFacts.CertificationExamples | main.py:178-186 | "", "PG-13", "", "R" gives "PG-13" here and "R" in the handler. A first US region with only "" raises KeyError even when a later US region has "R" |
| MovieDataFacts.LastOfficialKeySpec | main.py:196-201 | No key iff no video is official. Otherwise it is the key of an official video after which none is official |
| MovieDataFacts.MovieDataSucceeds | main.py:154-212 | `get_movie_data` succeeds iff credits, release dates, both image keys and videos are present, the US rating is decidable, and every US rent entry is named (neither an empty object nor null) |
| MovieDataFacts.MovieDataImages | main.py:160-194 | The type is the capitalised media type; backdrop and poster are the image base followed by the formatted value |
| MovieDataFacts.MovieDataCrew | main.py:164-168 | directors and producers are present iff some crew member has that job, and are then the names in crew order |
| MovieDataFacts.JobPresent | main.py:164-168 | The names for a job are non-empty iff some crew member has that job |
| MovieDataFacts.MovieDataCast | main.py:171-176 | cast is present iff some member is credited for acting. It is the whole credited list, with no limit of ten |
| MovieDataFacts.CreditedListSpec | main.py:171-176 | The cast list exists iff some member is credited; it then holds exactly the credited names |
| MovieDataFacts.MovieDataProviders | main.py:203-210 | providers is the US rent names in order, empty when there is no US region |
| MovieDataFacts.MovieDataTrailer | main.py:196-201 | trailer_url is set iff some video is official, as the watch link of the last official one |
| MovieDataFacts.MovieDataContentRating | main.py:178-186 | content_rating is unset iff no region is US. Otherwise it is the first US region's first non-empty certification |
| MovieDataFacts.FirstUSRating | main.py:178-186 | A decided US rating is absent iff no region is US; otherwise it comes from the first US region |
| NotionPage.LanguageName | main.py:121-125 | The language lookup succeeds iff the code (or "" when absent) is in the table; a None code raises KeyError |
| NotionPage.Present | main.py:138-139 | A property survives iff its value is not None, and keeps that value |
| NotionPage.Property | main.py:50-136 | The dict literal's value for each property. Only the five conditional properties can be None |
| NotionPage.NotionProperties | main.py:50-139 | Building succeeds iff genres is a list and the language lookup succeeds. The 21 unconditional properties are then always sent, and nothing outside the dict literal is |
| NotionPage.UpdateNotionPage | main.py:48-151 | It writes iff the property dict can be built. It then makes exactly three writes to the given page: the filtered properties, the icon set to the poster link, and the cover set to the backdrop link |
| NotionPageFacts.NotionErrors | main.py:63-65 | Building succeeds iff genres is a list and the language lookup succeeds. Otherwise TypeError for genres, or KeyError for the language |
| NotionPageFacts.NotionDefaults | main.py:131-135 | Watch Status is "Unwatched", Rewatch is unchecked, Rating is the default emoji text, and Format is "Unowned" |
| NotionPageFacts.DefaultProperties | main.py:131-135 | The four default properties have those values whatever the record |
| NotionPageFacts.PropertyAt | main.py:50-139 | A property is sent iff it is in the dict literal and not None, and with the dict literal's value |
| NotionPageFacts.NotionConditional | main.py:53-130 | TMDB Rating, IMDb Page, Release Date, Country of Origin and Original Title are sent iff their guard holds |
| NotionPageFacts.NotionValues | main.py:63-125 | Genre carries the genre names in order, VOD the provider names, and Original Language the table's name for the code |
| NotionPageFacts.NotionCredits | main.py:58-93 | Director, Producer and Cast carry the ", "-joined names, or "" when the list was never created |
| SyncDriver.NotionQuery | main.py:27-37 | With a non-empty title a page matches iff its title equals it; otherwise iff its title ends in ";" |
| SyncDriver.FirstResult | main.py:42-45 | None iff there are no search results; otherwise the first one |
| SyncDriver.ProcessEntry | main.py:226-243 | One loop iteration equals `EntryStep`: a title-less entry raises IndexError. A result neither movie nor tv skips. A movie rebinds. No binding raises UnboundLocalError. Otherwise the page is updated |
| SyncDriver.RunSync | main.py:215-243 | The loop equals `Sync`: no entries raises NoEntriesFoundException, and the first failing entry ends the run after the earlier writes |
| SyncDriver.SyncAdvance | main.py:225-243 | The run from entry i is that entry's step followed by the run from i + 1 |
| SyncDriverFacts.PendingQuery | main.py:33-37 | With no title, an entry matches iff its title ends in ";" |
| SyncDriverFacts.TitleQuery | main.py:28-32 | With a non-empty title, an entry matches iff its title equals it |
| SyncDriverFacts.EntryTitleStripped | main.py:226 | The title is read iff a text run exists. It is a prefix of the first run with no trailing ";", and every character removed was a ";" |
| SyncDriverFacts.EntryStepWrites | main.py:232-243 | An iteration writes nothing or one property, icon and cover triple, all for the entry's page |
| SyncDriverFacts.SyncWrites | main.py:225-243 | A run writes whole triples, at most three per entry, only to pages of the entries |
| SyncDriverFacts.NoEntries | main.py:222-223 | An empty query response ends the run with NoEntriesFoundException and no writes |
| SyncDriverFacts.SkipOther | main.py:240-241 | A first result that is neither movie nor tv is skipped without a write, and the binding is kept |
| SyncDriverFacts.StaleReuse | main.py:232-243 | A tv result or no result writes the previous entry's data to this page |
| SyncDriverFacts.UnboundFirst | main.py:232-243 | If the first entry has a tv result or none, the run ends with UnboundLocalError before any write |
| SyncDriverFacts.MovieRebinds | main.py:234-235 | A movie result makes the step independent of earlier data. It writes the properties of that movie's data |
| PyData.RStrip | main.py:226 | `rstrip(";")` gives a prefix not ending in ";", and everything removed was ";" |
| PyData.Capitalize | main.py:161 | The first character is upper-cased and the rest lower-cased; the length is kept |
| PyData.Take | utils/TMDBHandler.py:195 | `[:10]` is the prefix of length min(10, n) |

## Left out

- Network and SDK calls are left out.
  - This covers `search_media`, `fetch_media_details`, `tmdb.Movies(...).info`, `tmdb.Search().multi`, `notion.databases.query` and `notion.pages.update`.
  - The search result list and the fetched record are parameters. The Notion writes are recorded as `Call` values.
  - No transport failure is modelled, since the source never catches one per entry.
- `utils/TMDB_API.py` and `utils/NotionHandler.py` are not part of this model.
- `ResultsExceptions.py` appears only as the `NoEntriesFound` error.
- Logging, environment variables and the module-level JSON load are left out. The language table is a parameter.
- The `print` calls are left out. This includes the one that is the only effect of `get_cleaned_media_data`.
- CleanMediaFacts.FilteredTitle: `round(vote_average, 1)` is not modelled. The rating is carried unrounded, because the model has no floating-point arithmetic.
- TmdbHandler.CleanCrew: the tmdb_rating it writes is the unrounded vote average, for the same reason.
- TmdbHandlerFacts.CrewStageTagline: states the unrounded vote average as tmdb_rating, for the same reason.
- TmdbHandlerFacts.MovieCrewValues: states the unrounded vote average as tmdb_rating, for the same reason.
- CleanMediaFacts.CleanedTitle: states the unrounded vote average as tmdb_rating, for the same reason.
- NotionPage.Property: the TMDB Rating number is the unrounded vote average, where the source rounds it to one decimal, for the same reason.
- NotionPageFacts.PropertyAt: the value it gives for TMDB Rating is that unrounded vote average, for the same reason.
- Dict key order and in-place aliasing are left out.
  - `clean_media_data` mutates the caller's dict; the model returns a new map.
  - The order of the result's keys is not represented.
- Nested entries of unexpected shape are left out. Crew members, cast members, videos, release dates and genres are typed records whose keys are always present. Missing and None are modelled only at the record's top level and for watch-provider entries (an empty object or null).
- TmdbRecord.AsDict: a raw top-level key named `streaming`, `watch_free`, `content_rating`, `directors`, `producers` or `cast_list` is not represented. The movie branch writes the first three only under a condition, and extends the last three with `setdefault` and `append`, which would build on a list already there. The model assumes the raw record carries none of them. Every other raw key is kept in the dict view, including a TV record's own `type`.
- The members below state their results for raw records without such keys. A raw list under one of the extended keys would come first in the source's joined names, and in the cast it would also count towards the limit of ten. A raw crew list would also stop the TypeError predicted for a missing director or producer.
- TmdbHandler.CleanMediaData: assumes no raw directors, producers or cast_list, as above.
- TmdbHandler.CleanCrew: assumes no raw directors or producers list for `setdefault` to extend.
- TmdbHandler.CleanCredits: assumes no raw cast_list for `setdefault` to extend. The pop that follows is modelled.
- TmdbHandlerFacts.CrewStageNames: the joined names are the crew's only, since no raw list is assumed.
- TmdbHandlerFacts.CreditsStageShape: the cast is the crew's credited names only, since no raw cast_list is assumed.
- TmdbHandlerFacts.MovieCrewValues: the joined names are the crew's only, since no raw list is assumed.
- TmdbHandlerFacts.MovieCreditsValues: the cast is the credited names only, since no raw cast_list is assumed.
- CleanMediaFacts.FilteredCrew: the joined names are the crew's only, since no raw list is assumed.
- CleanMediaFacts.FilteredCast: the cast is the credited names only, since no raw cast_list is assumed.
- CleanMediaFacts.CrewErrors: the TypeError for a missing director or producer assumes no raw list under that key.
- CleanMediaFacts.CleanedCrew: the record's dict view has no raw directors or producers, as `TmdbRecord.AsDict` states.
- CleanMediaFacts.CleanedCast: the record's dict view has no raw cast_list, as `TmdbRecord.AsDict` states.
- CleanMediaFacts.CrewStageSucceeds: requiring a Director and a Producer assumes no raw list under those keys.
- CleanMediaFacts.CleanedSucceeds: its director and producer conditions assume no raw list under those keys.
- MovieData.GetMovieData: raw top-level values under `directors`, `producers`, `cast`, `content_rating` and `trailer_url` are ignored. The source extends the first three with `setdefault`, reads `content_rating` by subscript, and keeps a raw `trailer_url`. TMDb records do not carry these keys, and the model assumes they are absent.
- MovieDataFacts.MovieDataSucceeds: the KeyError("content_rating") for a first US region without a certification assumes no raw content_rating.
- MovieDataFacts.MovieDataCrew: the names are the crew's only, since no raw directors or producers list is assumed.
- MovieDataFacts.MovieDataCast: the names are the credited cast only, since no raw cast list is assumed.
- MovieDataFacts.MovieDataTrailer: no trailer link without an official video assumes no raw trailer_url.
- MovieDataFacts.MovieDataContentRating: an unset rating without a US region assumes no raw content_rating.
- PyData.Capitalize: upper- and lower-casing cover ASCII letters only. Media types are ASCII.
- The `try`/`except` around the Notion query in `main()` (main.py:216-220) is left out. So is the NameError it would cause by leaving `notion_entries` unbound. The entries are a parameter.
- The TV series branch (`elif media_type == "tv": pass`) is modelled as doing nothing. That is exactly what it does.
- `Episodes` and `Seasons` are read from the pass-through keys of the record.

## Design notes

- The model follows the code, including these behaviours:
  - `clean_media_data` on a media type other than "movie" does not raise. It only filters the raw record: `NonMovieOnlyFilters`.
  - In the handler, an empty certification sets None. So the last US date decides, even when it is empty: `ContentRatingExamples`.
  - `main()` does not catch per-entry errors. Any exception ends the run: `RunSync`.
  - No result, or a tv result, reuses the previous entry's data instead of skipping: `StaleReuse`. On the first entry it raises UnboundLocalError: `UnboundFirst`.
- `get_cleaned_media_data` returns None, because its `return` is commented out. Its model returns only success or the exception.
- Joining a missing crew list raises TypeError. A movie with no director, or with a director but no producer, cannot be cleaned: `CrewErrors`.
- The Rating default is the literal text of the source. That text is the shrug emoji's UTF-8 bytes read as Mac OS Roman: `NotionPage.RatingDefault`.
- The handler's original-language lookup is commented out. There the raw code passes through. `update_notion_page` does look the code up, and a code the table lacks raises KeyError.
