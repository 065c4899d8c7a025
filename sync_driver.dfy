/** The driver of main.py: the Notion query filter of `get_notion_entries`,
    the first-result rule of `search_tmdb`, and the per-entry loop of `main`.
    The Notion and TMDb clients are parameters: `search` is the result list
    of `search.multi` for a query, `fetch` the record `movie.info` returns
    for a search result; the writes are recorded as a trace of calls. */
module SyncDriver {
  import opened Wrappers
  import opened PyData
  import opened TmdbRecord
  import opened MovieData
  import opened NotionPage

  /** The title filter of a database query. */
  datatype TitleFilter = Equals(title: string) | EndsWith(suffix: string)

  /** Whether a page title passes a filter. */
  predicate Matches(f: TitleFilter, s: string) {
    match f
    case Equals(t) => s == t
    case EndsWith(x) => |x| <= |s| && s[|s| - |x|..] == x
  }

  /** `get_notion_entries(title)`: the exact title when one is given (and
      truthy), otherwise every title ending in the pending marker ";". */
  function NotionQuery(title: Option<string>): (f: TitleFilter)
    ensures title.Some? && title.value != "" ==> forall s :: Matches(f, s) <==> s == title.value
    ensures title.None? || title == Some("") ==> forall s :: Matches(f, s) <==> |s| > 0 && s[|s| - 1] == ';'
  {
    if title.Some? && title.value != "" then Equals(title.value) else EndsWith(";")
  }

  /** `search_tmdb(title)`: the first search result, None for no result. */
  function FirstResult(results: seq<SearchResult>): (r: Option<SearchResult>)
    ensures r.None? <==> results == []
    ensures r.Some? ==> r == Some(results[0])
  {
    if results == [] then None else Some(results[0])
  }

  /** One entry of the query response: its page id and the text runs of its
      Title property. */
  datatype NotionEntry = NotionEntry(id: string, titleTexts: seq<string>)

  /** The text of the first run of the entry's Title property, with its
      trailing ";" characters stripped; IndexError when there is no run. */
  function EntryTitle(e: NotionEntry): Result<string, Error> {
    if e.titleTexts == [] then Failure(IndexError("title")) else Success(RStrip(e.titleTexts[0], ';'))
  }

  /** The outcome of `main()`: the writes made, and the exception that ended
      the run, if any. */
  datatype SyncRun = SyncRun(calls: seq<Call>, error: Option<Error>)

  /** One iteration of the loop, given the `tmdb_data` bound so far: the new
      binding and the writes made. A search result that is neither a movie
      nor a series is skipped; a series or no result reuses the binding. */
  function EntryStep(entry: NotionEntry, bound: Option<MovieData>, search: string -> seq<SearchResult>,
                     fetch: SearchResult -> MovieRecord, languages: map<string, string>): Result<(Option<MovieData>, seq<Call>), Error>
  {
    var title :- EntryTitle(entry);
    var result := FirstResult(search(title));
    if result.Some? && result.value.mediaType != "movie" && result.value.mediaType != "tv" then Success((bound, []))
    else
      var data :- if result.Some? && result.value.mediaType == "movie" then
          var d :- MovieDataOf(result.value, fetch(result.value));
          Success(Some(d))
        else Success(bound);
      if data.None? then Failure(UnboundLocalError("tmdb_data"))
      else
        var calls :- UpdateNotionPage(entry.id, data.value, languages);
        Success((data, calls))
  }

  /** The loop over the remaining entries; the first exception ends it. */
  function SyncEntries(entries: seq<NotionEntry>, bound: Option<MovieData>, search: string -> seq<SearchResult>,
                       fetch: SearchResult -> MovieRecord, languages: map<string, string>): SyncRun
    decreases |entries|
  {
    if entries == [] then SyncRun([], None)
    else
      var step := EntryStep(entries[0], bound, search, fetch, languages);
      if step.Failure? then SyncRun([], Some(step.error))
      else
        var rest := SyncEntries(entries[1..], step.value.0, search, fetch, languages);
        SyncRun(step.value.1 + rest.calls, rest.error)
  }

  /** `main()` on the entries the query returned. */
  function Sync(entries: seq<NotionEntry>, search: string -> seq<SearchResult>,
                fetch: SearchResult -> MovieRecord, languages: map<string, string>): SyncRun {
    if entries == [] then SyncRun([], Some(NoEntriesFound))
    else SyncEntries(entries, None, search, fetch, languages)
  }

  function Prepend(calls: seq<Call>, run: SyncRun): SyncRun {
    SyncRun(calls + run.calls, run.error)
  }

  /** The run from entry `i` on, after the writes `calls`, once the step
      of entry `i` is known. */
  lemma SyncAdvance(entries: seq<NotionEntry>, i: nat, calls: seq<Call>, bound: Option<MovieData>,
                    step: Result<(Option<MovieData>, seq<Call>), Error>, search: string -> seq<SearchResult>,
                    fetch: SearchResult -> MovieRecord, languages: map<string, string>)
    requires i < |entries|
    requires step == EntryStep(entries[i], bound, search, fetch, languages)
    ensures step.Failure? ==>
      Prepend(calls, SyncEntries(entries[i..], bound, search, fetch, languages)) == SyncRun(calls, Some(step.error))
    ensures step.Success? ==>
      Prepend(calls, SyncEntries(entries[i..], bound, search, fetch, languages)) ==
        Prepend(calls + step.value.1, SyncEntries(entries[i + 1..], step.value.0, search, fetch, languages))
  {
    SyncEntriesStep(entries, i, bound, search, fetch, languages);
    if step.Failure? {
      assert calls + [] == calls;
    } else {
      PrependTwice(calls, step.value.1, SyncEntries(entries[i + 1..], step.value.0, search, fetch, languages));
    }
  }

  lemma SyncEntriesStep(entries: seq<NotionEntry>, i: nat, bound: Option<MovieData>, search: string -> seq<SearchResult>,
                        fetch: SearchResult -> MovieRecord, languages: map<string, string>)
    requires i < |entries|
    ensures var step := EntryStep(entries[i], bound, search, fetch, languages);
      SyncEntries(entries[i..], bound, search, fetch, languages) ==
        if step.Failure? then SyncRun([], Some(step.error))
        else Prepend(step.value.1, SyncEntries(entries[i + 1..], step.value.0, search, fetch, languages))
  {
    assert entries[i..][0] == entries[i] && entries[i..][1..] == entries[i + 1..];
  }

  lemma PrependTwice(a: seq<Call>, b: seq<Call>, run: SyncRun)
    ensures Prepend(a, Prepend(b, run)) == Prepend(a + b, run)
  {
    assert a + (b + run.calls) == (a + b) + run.calls;
  }

  /** The body of the loop of `main()` for one entry, given the `tmdb_data`
      bound so far. */
  method ProcessEntry(entry: NotionEntry, tmdbData: Option<MovieData>, search: string -> seq<SearchResult>,
                      fetch: SearchResult -> MovieRecord, languages: map<string, string>)
    returns (r: Result<(Option<MovieData>, seq<Call>), Error>)
    ensures r == EntryStep(entry, tmdbData, search, fetch, languages)
  {
    if entry.titleTexts == [] {
      return Failure(IndexError("title"));
    }
    var title := RStrip(entry.titleTexts[0], ';');
    var pageId := entry.id;
    var tmdbResult := FirstResult(search(title));
    var bound := tmdbData;
    if tmdbResult.Some? {
      var tmdbType := tmdbResult.value.mediaType;
      if tmdbType == "movie" {
        var data := GetMovieData(tmdbResult.value, fetch(tmdbResult.value));
        if data.Failure? {
          return Failure(data.error);
        }
        bound := Some(data.value);
      } else if tmdbType == "tv" {
      } else {
        return Success((bound, []));
      }
    }
    if bound.None? {
      return Failure(UnboundLocalError("tmdb_data"));
    }
    var update := UpdateNotionPage(pageId, bound.value, languages);
    if update.Failure? {
      return Failure(update.error);
    }
    return Success((bound, update.value));
  }

  /** `main()`: the loop over the entries, carrying `tmdb_data` across
      iterations. */
  method RunSync(notionEntries: seq<NotionEntry>, search: string -> seq<SearchResult>,
                 fetch: SearchResult -> MovieRecord, languages: map<string, string>) returns (run: SyncRun)
    ensures run == Sync(notionEntries, search, fetch, languages)
  {
    if notionEntries == [] {
      return SyncRun([], Some(NoEntriesFound));
    }
    var calls: seq<Call> := [];
    var tmdbData: Option<MovieData> := None;
    var i := 0;
    while i < |notionEntries|
      invariant 0 <= i <= |notionEntries|
      invariant Sync(notionEntries, search, fetch, languages) ==
        Prepend(calls, SyncEntries(notionEntries[i..], tmdbData, search, fetch, languages))
    {
      var step := ProcessEntry(notionEntries[i], tmdbData, search, fetch, languages);
      SyncAdvance(notionEntries, i, calls, tmdbData, step, search, fetch, languages);
      if step.Failure? {
        return SyncRun(calls, Some(step.error));
      }
      tmdbData := step.value.0;
      calls := calls + step.value.1;
      i := i + 1;
    }
    assert notionEntries[|notionEntries|..] == [];
    assert calls + [] == calls;
    return SyncRun(calls, None);
  }
}
