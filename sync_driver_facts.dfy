/** Properties of the driver of main.py: the query filter, the writes the
    loop makes, and the `tmdb_data` binding it carries across entries. */
module SyncDriverFacts {
  import opened Wrappers
  import opened PyData
  import opened TmdbRecord
  import opened MovieData
  import opened NotionPage
  import opened SyncDriver

  // ----- the query -----

  /** Without a title the query selects the pending pages: exactly the
      titles that stripping ";" would change. */
  lemma PendingQuery(title: Option<string>, s: string)
    requires title.None? || title == Some("")
    ensures Matches(NotionQuery(title), s) <==> RStrip(s, ';') != s
  {
    if s != [] && s[|s| - 1] == ';' {
      assert |RStrip(s[..|s| - 1], ';')| < |s|;
    }
  }

  /** With a title the query selects that title only. */
  lemma TitleQuery(t: string, s: string)
    requires t != ""
    ensures Matches(NotionQuery(Some(t)), s) <==> s == t
  {
  }

  /** The title searched for carries no trailing ";", and is missing only
      when the Title property has no text run. */
  lemma EntryTitleStripped(e: NotionEntry)
    ensures EntryTitle(e).Success? <==> e.titleTexts != []
    ensures EntryTitle(e).Success? ==>
      var t := EntryTitle(e).value;
      (t == [] || t[|t| - 1] != ';') && t == e.titleTexts[0][..|t|]
    ensures EntryTitle(e).Success? ==>
      forall i :: |EntryTitle(e).value| <= i < |e.titleTexts[0]| ==> e.titleTexts[0][i] == ';'
  {
  }

  // ----- the writes -----

  /** The trace is a run of page updates, each the three calls
      `update_notion_page` makes for one page. */
  predicate Triples(calls: seq<Call>)
    decreases |calls|
  {
    calls == [] ||
    (|calls| >= 3 && calls[0].UpdateProperties? && calls[1].SetIcon? && calls[2].SetCover?
     && calls[1].pageId == calls[0].pageId && calls[2].pageId == calls[0].pageId
     && Triples(calls[3..]))
  }

  lemma {:induction false} TriplesAppend(a: seq<Call>, b: seq<Call>)
    requires Triples(a) && Triples(b)
    ensures Triples(a + b)
    decreases |a|
  {
    if a != [] {
      assert (a + b)[3..] == a[3..] + b;
      TriplesAppend(a[3..], b);
    } else {
      assert a + b == b;
    }
  }

  /** The page ids of the entries. */
  function PageIds(entries: seq<NotionEntry>): set<string> {
    set e | e in entries :: e.id
  }

  /** One entry writes nothing or the three updates of its own page. */
  lemma EntryStepWrites(entry: NotionEntry, bound: Option<MovieData>, search: string -> seq<SearchResult>,
                        fetch: SearchResult -> MovieRecord, languages: map<string, string>)
    ensures var step := EntryStep(entry, bound, search, fetch, languages);
      step.Success? ==>
        (|step.value.1| == 0 || |step.value.1| == 3) && Triples(step.value.1)
        && forall c :: c in step.value.1 ==> c.pageId == entry.id
  {
    var step := EntryStep(entry, bound, search, fetch, languages);
    if step.Success? && step.value.1 != [] {
      var calls := step.value.1;
      assert calls[3..] == [];
    }
  }

  /** `main()` writes whole page updates, only to pages the query returned,
      at most one update per entry. */
  lemma {:induction false} SyncWrites(entries: seq<NotionEntry>, bound: Option<MovieData>, search: string -> seq<SearchResult>,
                                      fetch: SearchResult -> MovieRecord, languages: map<string, string>)
    ensures var run := SyncEntries(entries, bound, search, fetch, languages);
      Triples(run.calls) && |run.calls| <= 3 * |entries|
      && forall c :: c in run.calls ==> c.pageId in PageIds(entries)
    decreases |entries|
  {
    if entries != [] {
      var step := EntryStep(entries[0], bound, search, fetch, languages);
      EntryStepWrites(entries[0], bound, search, fetch, languages);
      if step.Success? {
        var rest := SyncEntries(entries[1..], step.value.0, search, fetch, languages);
        SyncWrites(entries[1..], step.value.0, search, fetch, languages);
        TriplesAppend(step.value.1, rest.calls);
        assert PageIds(entries[1..]) <= PageIds(entries) by {
          forall e | e in entries[1..] ensures e in entries {
          }
        }
      }
    }
  }

  /** An empty query response ends the run before any write. */
  lemma NoEntries(search: string -> seq<SearchResult>, fetch: SearchResult -> MovieRecord,
                  languages: map<string, string>)
    ensures Sync([], search, fetch, languages) == SyncRun([], Some(NoEntriesFound))
  {
  }

  // ----- the `tmdb_data` binding -----

  /** The search result of an entry with a title. */
  function SearchOf(entry: NotionEntry, search: string -> seq<SearchResult>): Option<SearchResult>
    requires entry.titleTexts != []
  {
    FirstResult(search(RStrip(entry.titleTexts[0], ';')))
  }

  /** A search result that is neither a movie nor a series leaves the
      binding alone and writes nothing. */
  lemma SkipOther(entry: NotionEntry, bound: Option<MovieData>, search: string -> seq<SearchResult>,
                  fetch: SearchResult -> MovieRecord, languages: map<string, string>)
    requires entry.titleTexts != []
    requires var res := SearchOf(entry, search);
      res.Some? && res.value.mediaType != "movie" && res.value.mediaType != "tv"
    ensures EntryStep(entry, bound, search, fetch, languages) == Success((bound, []))
  {
  }

  /** No search result, or a series, writes the data of the previous movie
      to this entry's page: the stale binding is reused. */
  lemma StaleReuse(entry: NotionEntry, d: MovieData, search: string -> seq<SearchResult>,
                   fetch: SearchResult -> MovieRecord, languages: map<string, string>)
    requires entry.titleTexts != []
    requires var res := SearchOf(entry, search); res.None? || res.value.mediaType == "tv"
    ensures var step := EntryStep(entry, Some(d), search, fetch, languages);
      var props := NotionProperties(d, languages);
      (step.Success? <==> props.Success?)
      && (step.Success? ==>
            step.value.0 == Some(d)
            && step.value.1 == [UpdateProperties(entry.id, props.value), SetIcon(entry.id, d.posterPath),
                                SetCover(entry.id, d.backdropPath)])
  {
  }

  /** When the first entry finds no movie, nothing is bound yet: the run ends
      with UnboundLocalError before any write. */
  lemma UnboundFirst(entries: seq<NotionEntry>, search: string -> seq<SearchResult>,
                     fetch: SearchResult -> MovieRecord, languages: map<string, string>)
    requires entries != [] && entries[0].titleTexts != []
    requires var res := SearchOf(entries[0], search); res.None? || res.value.mediaType == "tv"
    ensures Sync(entries, search, fetch, languages) == SyncRun([], Some(UnboundLocalError("tmdb_data")))
  {
  }

  /** A movie result rebinds `tmdb_data` to its own data: the step does not
      depend on what was bound before, and writes that data's properties. */
  lemma MovieRebinds(entry: NotionEntry, b1: Option<MovieData>, b2: Option<MovieData>, search: string -> seq<SearchResult>,
                     fetch: SearchResult -> MovieRecord, languages: map<string, string>)
    requires entry.titleTexts != []
    requires var res := SearchOf(entry, search); res.Some? && res.value.mediaType == "movie"
    ensures EntryStep(entry, b1, search, fetch, languages) == EntryStep(entry, b2, search, fetch, languages)
    ensures var res := SearchOf(entry, search).value;
      var step := EntryStep(entry, b1, search, fetch, languages);
      var data := MovieDataOf(res, fetch(res));
      step.Success? ==>
        data.Success? && step.value.0 == Some(data.value) && NotionProperties(data.value, languages).Success?
        && step.value.1[0] == UpdateProperties(entry.id, NotionProperties(data.value, languages).value)
  {
  }
}
