/** What `get_movie_data` promises of its result, and where its rules part
    from those of `clean_media_data`. */
module MovieDataFacts {
  import opened Wrappers
  import opened PyData
  import opened TmdbRecord
  import opened Extraction
  import opened TmdbHandler
  import opened MovieData

  /** The first non-empty certification is found exactly when there is one,
      and every date before it is empty. */
  lemma {:induction false} FirstCertificationSpec(ds: seq<ReleaseDate>)
    ensures FirstCertification(ds).None? <==> forall j :: 0 <= j < |ds| ==> ds[j].certification == ""
    ensures FirstCertification(ds).Some? ==>
      exists j :: && 0 <= j < |ds| && ds[j].certification == FirstCertification(ds).value != ""
                  && forall k :: 0 <= k < j ==> ds[k].certification == ""
    decreases |ds|
  {
    if ds != [] {
      FirstCertificationSpec(ds[1..]);
      if ds[0].certification == "" {
        if FirstCertification(ds).Some? {
          var j :| && 0 <= j < |ds[1..]| && ds[1..][j].certification == FirstCertification(ds).value != ""
                   && forall k :: 0 <= k < j ==> ds[1..][k].certification == "";
          assert ds[j + 1].certification == FirstCertification(ds).value;
          forall k | 0 <= k < j + 1 ensures ds[k].certification == "" {
            if k > 0 { assert ds[k] == ds[1..][k - 1]; }
          }
        } else {
          forall j | 0 <= j < |ds| ensures ds[j].certification == "" {
            if j > 0 { assert ds[j] == ds[1..][j - 1]; }
          }
        }
      } else {
        assert ds[0].certification == FirstCertification(ds).value;
      }
    }
  }

  /** Only the first US region is read: no US region leaves the rating
      unset, and a first US region without a non-empty certification raises
      KeyError whatever later regions hold. */
  lemma {:induction false} FirstUSCertificationSpec(rs: seq<ReleaseCountry>)
    ensures (forall i :: 0 <= i < |rs| ==> rs[i].iso31661 != "US") ==> FirstUSCertification(rs) == Success(None)
    ensures forall i :: 0 <= i < |rs| && rs[i].iso31661 == "US" && (forall k :: 0 <= k < i ==> rs[k].iso31661 != "US") ==>
      FirstUSCertification(rs) ==
        if FirstCertification(rs[i].releaseDates).Some? then Success(FirstCertification(rs[i].releaseDates))
        else Failure(KeyError("content_rating"))
    decreases |rs|
  {
    if rs != [] {
      FirstUSCertificationSpec(rs[1..]);
      if rs[0].iso31661 != "US" {
        forall i | 0 <= i < |rs| && rs[i].iso31661 == "US" && (forall k :: 0 <= k < i ==> rs[k].iso31661 != "US")
          ensures FirstUSCertification(rs[1..]) ==
            if FirstCertification(rs[i].releaseDates).Some? then Success(FirstCertification(rs[i].releaseDates))
            else Failure(KeyError("content_rating"))
        {
          assert i > 0;
          assert rs[1..][i - 1] == rs[i];
          forall k | 0 <= k < i - 1 ensures rs[1..][k].iso31661 != "US" {
            assert rs[1..][k] == rs[k + 1];
          }
        }
        if forall i :: 0 <= i < |rs| ==> rs[i].iso31661 != "US" {
          forall i | 0 <= i < |rs[1..]| ensures rs[1..][i].iso31661 != "US" {
            assert rs[1..][i] == rs[i + 1];
          }
        }
      }
    }
  }

  /** The two certification examples: the first non-empty certification of
      the US region wins, where `clean_media_data` keeps the last one. */
  lemma CertificationExamples()
    ensures FirstUSCertification([ReleaseCountry("US", [ReleaseDate(""), ReleaseDate("PG-13"), ReleaseDate(""), ReleaseDate("R")])]) == Success(Some("PG-13"))
    ensures LastCertification(USDates([ReleaseCountry("US", [ReleaseDate(""), ReleaseDate("PG-13"), ReleaseDate(""), ReleaseDate("R")])])) == Some(JStr("R"))
    ensures FirstUSCertification([ReleaseCountry("US", [ReleaseDate("PG-13"), ReleaseDate("")])]) == Success(Some("PG-13"))
    ensures FirstUSCertification([ReleaseCountry("US", [ReleaseDate("")]), ReleaseCountry("US", [ReleaseDate("R")])]) == Failure(KeyError("content_rating"))
  {
    var a := [ReleaseCountry("US", [ReleaseDate(""), ReleaseDate("PG-13"), ReleaseDate(""), ReleaseDate("R")])];
    assert a[..0] == [];
    assert a[0].releaseDates[1..][0] == ReleaseDate("PG-13");
    var b := [ReleaseDate("")];
    assert b[1..] == [];
  }

  /** The trailer is the key of an official video after which no video is
      official, and there is none exactly when no video is official. */
  lemma {:induction false} LastOfficialKeySpec(vs: seq<Video>)
    ensures LastOfficialKey(vs).None? <==> forall i :: 0 <= i < |vs| ==> !vs[i].official
    ensures LastOfficialKey(vs).Some? ==>
      exists i :: && 0 <= i < |vs| && vs[i].official && vs[i].key == LastOfficialKey(vs).value
                  && forall j :: i < j < |vs| ==> !vs[j].official
    decreases |vs|
  {
    if vs != [] {
      var init := vs[..|vs| - 1];
      LastOfficialKeySpec(init);
      if !vs[|vs| - 1].official {
        if LastOfficialKey(vs).Some? {
          var i :| && 0 <= i < |init| && init[i].official && init[i].key == LastOfficialKey(vs).value
                   && forall j :: i < j < |init| ==> !init[j].official;
          assert vs[i] == init[i];
          forall j | i < j < |vs| ensures !vs[j].official {
            if j < |init| { assert vs[j] == init[j]; }
          }
        } else {
          forall i | 0 <= i < |vs| ensures !vs[i].official {
            if i < |init| { assert vs[i] == init[i]; }
          }
        }
      }
    }
  }

  /** The records `get_movie_data` accepts. */
  ghost predicate MovieDataAccepted(raw: MovieRecord) {
    && raw.credits.Has?
    && raw.releaseDates.Has?
    && FirstUSCertification(raw.releaseDates.value).Success?
    && !raw.backdropPath.Missing?
    && !raw.posterPath.Missing?
    && raw.videos.Has?
    && !raw.watchProviders.Null?
    && forall i :: 0 <= i < |USProviders(ProviderRegions(raw.watchProviders).value).rent| ==>
         USProviders(ProviderRegions(raw.watchProviders).value).rent[i].Listed?
  }

  /** `get_movie_data` raises exactly when the record lacks credits, release
      dates, a backdrop key, a poster key or videos, when its first US region
      has no certification, when the providers are null, or when a US rent
      entry is falsy. */
  lemma MovieDataSucceeds(result: SearchResult, raw: MovieRecord)
    ensures MovieDataOf(result, raw).Success? <==> MovieDataAccepted(raw)
  {
    if !raw.watchProviders.Null? {
      ProviderNamesSpec(USProviders(ProviderRegions(raw.watchProviders).value).rent);
    }
  }

  /** The fields of a successful result other than the lists: the
      capitalised media type and two image links that are always present,
      "None" standing in for a null path. */
  lemma MovieDataImages(result: SearchResult, raw: MovieRecord)
    requires MovieDataOf(result, raw).Success?
    ensures var m := MovieDataOf(result, raw).value;
      && m.raw == raw
      && m.mediaType == Capitalize(result.mediaType)
      && m.backdropPath == ImageBase + FormatStr(raw.backdropPath.Get())
      && m.posterPath == ImageBase + FormatStr(raw.posterPath.Get())
  {
  }

  /** The crew lists of a successful result: present exactly when some crew
      member has the job, in crew order. */
  lemma MovieDataCrew(result: SearchResult, raw: MovieRecord)
    requires MovieDataOf(result, raw).Success?
    ensures raw.credits.Has?
    ensures var m := MovieDataOf(result, raw).value;
      var crew := raw.credits.value.crew;
      && (m.directors.Some? <==> exists i :: 0 <= i < |crew| && crew[i].job == "Director")
      && (m.directors.Some? ==> m.directors.value == CrewNames(crew, "Director"))
      && (m.producers.Some? <==> exists i :: 0 <= i < |crew| && crew[i].job == "Producer")
      && (m.producers.Some? ==> m.producers.value == CrewNames(crew, "Producer"))
  {
    var crew := raw.credits.value.crew;
    JobPresent(crew, "Director");
    JobPresent(crew, "Producer");
  }

  lemma JobPresent(crew: seq<CrewMember>, job: string)
    ensures CrewNames(crew, job) != [] <==> exists i :: 0 <= i < |crew| && crew[i].job == job
  {
    var ns := CrewNames(crew, job);
    if ns != [] { CrewNamesMembers(crew, job, ns[0]); }
    if exists i :: 0 <= i < |crew| && crew[i].job == job {
      var i :| 0 <= i < |crew| && crew[i].job == job;
      CrewNamesMembers(crew, job, crew[i].name);
    }
  }

  /** The cast of a successful result is the whole credited cast, with no
      cap: every credited member's name is listed, and only those. */
  lemma MovieDataCast(result: SearchResult, raw: MovieRecord)
    requires MovieDataOf(result, raw).Success?
    ensures raw.credits.Has?
    ensures var m := MovieDataOf(result, raw).value;
      var cast := raw.credits.value.cast;
      && (m.cast.Some? <==> exists i :: 0 <= i < |cast| && Credited(cast[i]))
      && (m.cast.Some? ==> m.cast.value == CreditedNames(cast))
      && (m.cast.Some? ==> forall n :: n in m.cast.value <==> exists i :: 0 <= i < |cast| && Credited(cast[i]) && cast[i].name == n)
  {
    CreditedListSpec(raw.credits.value.cast);
  }

  /** The cast list the credited-cast loop leaves: none without a credited
      member, otherwise every credited name in order. */
  lemma CreditedListSpec(cast: seq<CastMember>)
    ensures var names := NonEmpty(CreditedNames(cast));
      && (names.Some? <==> exists i :: 0 <= i < |cast| && Credited(cast[i]))
      && (names.Some? ==> names.value == CreditedNames(cast))
      && (names.Some? ==> forall n :: n in names.value <==> exists i :: 0 <= i < |cast| && Credited(cast[i]) && cast[i].name == n)
  {
    forall n ensures n in CreditedNames(cast) <==> exists i :: 0 <= i < |cast| && Credited(cast[i]) && cast[i].name == n {
      CreditedNamesMembers(cast, n);
    }
    var cs := CreditedNames(cast);
    if cs != [] { assert cs[0] in cs; }
    if exists i :: 0 <= i < |cast| && Credited(cast[i]) {
      var i :| 0 <= i < |cast| && Credited(cast[i]);
      assert cast[i].name in cs;
    }
  }

  /** The providers of a successful result are the US rent names, in order;
      there is no fallback to another region or list. */
  lemma MovieDataProviders(result: SearchResult, raw: MovieRecord)
    requires MovieDataOf(result, raw).Success?
    ensures !raw.watchProviders.Null?
    ensures var m := MovieDataOf(result, raw).value;
      var regions := ProviderRegions(raw.watchProviders).value;
      var rent := USProviders(regions).rent;
      && |m.providers| == |rent|
      && (forall i :: 0 <= i < |rent| ==> rent[i].Listed? && m.providers[i] == rent[i].providerName)
      && ("US" !in regions ==> m.providers == [])
  {
    ProviderNamesSpec(USProviders(ProviderRegions(raw.watchProviders).value).rent);
  }

  /** The trailer of a successful result links the last official video,
      whatever its type, site or region; it is absent when none is official. */
  lemma MovieDataTrailer(result: SearchResult, raw: MovieRecord)
    requires MovieDataOf(result, raw).Success?
    ensures raw.videos.Has?
    ensures var m := MovieDataOf(result, raw).value;
      var vs := raw.videos.value;
      && (m.trailerUrl.None? <==> forall i :: 0 <= i < |vs| ==> !vs[i].official)
      && (m.trailerUrl.Some? ==>
            exists i :: && 0 <= i < |vs| && vs[i].official && m.trailerUrl.value == YouTubeWatch + vs[i].key
                        && forall j :: i < j < |vs| ==> !vs[j].official)
  {
    LastOfficialKeySpec(raw.videos.value);
  }

  /** The content rating of a successful result: the first non-empty
      certification of the first US region, or none without a US region. */
  lemma MovieDataContentRating(result: SearchResult, raw: MovieRecord)
    requires MovieDataOf(result, raw).Success?
    ensures raw.releaseDates.Has?
    ensures var m := MovieDataOf(result, raw).value;
      var rs := raw.releaseDates.value;
      && (m.contentRating.None? <==> forall i :: 0 <= i < |rs| ==> rs[i].iso31661 != "US")
      && (m.contentRating.Some? ==>
            exists i :: && 0 <= i < |rs| && rs[i].iso31661 == "US"
                        && (forall k :: 0 <= k < i ==> rs[k].iso31661 != "US")
                        && m.contentRating == FirstCertification(rs[i].releaseDates))
  {
    FirstUSRating(raw.releaseDates.value);
  }

  /** A rating the content-rating loop settles on, read back. */
  lemma FirstUSRating(rs: seq<ReleaseCountry>)
    ensures var r := FirstUSCertification(rs);
      r.Success? ==> (r.value.None? <==> forall i :: 0 <= i < |rs| ==> rs[i].iso31661 != "US")
    ensures var r := FirstUSCertification(rs);
      r.Success? && r.value.Some? ==>
        exists i :: && 0 <= i < |rs| && rs[i].iso31661 == "US"
                    && (forall k :: 0 <= k < i ==> rs[k].iso31661 != "US")
                    && r.value == FirstCertification(rs[i].releaseDates)
  {
    FirstUSCertificationSpec(rs);
    if exists i :: 0 <= i < |rs| && rs[i].iso31661 == "US" {
      var i := FirstUS(rs);
    }
  }

  /** The index of the first US region. */
  lemma FirstUS(rs: seq<ReleaseCountry>) returns (i: nat)
    requires exists i :: 0 <= i < |rs| && rs[i].iso31661 == "US"
    ensures i < |rs| && rs[i].iso31661 == "US" && forall k :: 0 <= k < i ==> rs[k].iso31661 != "US"
  {
    i := 0;
    while rs[i].iso31661 != "US"
      invariant i < |rs|
      invariant forall k :: 0 <= k < i ==> rs[k].iso31661 != "US"
      invariant exists j :: i <= j < |rs| && rs[j].iso31661 == "US"
      decreases |rs| - i
    {
      i := i + 1;
    }
  }
}
