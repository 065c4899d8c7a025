/** The list extractions that `TMDBHandler.clean_media_data` and
    `main.get_movie_data` share: crew names by job, credited cast names, the
    US watch-provider lists, and the typed accessors for top-level keys. */
module Extraction {
  import opened Wrappers
  import opened PyData
  import opened TmdbRecord

  /** `d[key]` on a top-level key: KeyError when absent, and the TypeError a
      further subscript of None raises when the value is null. */
  function Subscript<T>(s: Slot<T>, key: string): (r: Result<T, Error>)
    ensures r.Success? <==> s.Has?
    ensures s.Missing? ==> r == Failure(KeyError(key))
    ensures s.Has? ==> r.value == s.value
  {
    match s
    case Missing => Failure(KeyError(key))
    case Null => Failure(TypeError(key))
    case Has(v) => Success(v)
  }

  /** The regions of the watch/providers sub-resource, each level read with
      an empty default: an absent sub-resource reads as no regions; a null
      one raises AttributeError on the next lookup. */
  function ProviderRegions(s: Slot<map<string, RegionProviders>>): Result<map<string, RegionProviders>, Error> {
    match s
    case Missing => Success(map[])
    case Null => Failure(AttributeError("watch/providers"))
    case Has(m) => Success(m)
  }

  /** The US lists, read with an empty default: all empty when there is no
      US region. */
  function USProviders(regions: map<string, RegionProviders>): (r: RegionProviders)
    ensures "US" !in regions ==> r == RegionProviders([], [], [])
  {
    if "US" in regions then regions["US"] else RegionProviders([], [], [])
  }

  /** The names of the crew members whose job is exactly `job`, in crew order. */
  function CrewNames(crew: seq<CrewMember>, job: string): seq<string>
    decreases |crew|
  {
    if crew == [] then []
    else
      var last := crew[|crew| - 1];
      CrewNames(crew[..|crew| - 1], job) + (if last.job == job then [last.name] else [])
  }

  /** A cast member the normalisers list: acting, and not an uncredited part. */
  predicate Credited(m: CastMember) {
    m.knownForDepartment == "Acting" && !Contains(m.character, "(uncredited)")
  }

  /** The names of the credited cast members, in cast order. */
  function CreditedNames(cast: seq<CastMember>): seq<string>
    decreases |cast|
  {
    if cast == [] then []
    else
      var last := cast[|cast| - 1];
      CreditedNames(cast[..|cast| - 1]) + (if Credited(last) then [last.name] else [])
  }

  /** The key the setdefault-and-append loop leaves behind when the key was
      absent before the loop: still absent when nothing was appended, the
      appended list otherwise. */
  function NonEmpty(names: seq<string>): (r: Option<seq<string>>)
    ensures r.None? <==> names == []
    ensures r.Some? ==> r.value == names
  {
    if names == [] then None else Some(names)
  }

  /** The exception `p["provider_name"]` raises on a falsy entry. */
  function UnlistedError(p: Provider): Error
    requires !p.Listed?
  {
    if p.EmptyEntry? then KeyError("provider_name") else TypeError("provider_name")
  }

  /** The list of every entry's provider name, built by subscripting each
      entry in order: the first falsy entry raises. */
  function ProviderNames(ps: seq<Provider>): Result<seq<string>, Error>
    decreases |ps|
  {
    if ps == [] then Success([])
    else if !ps[0].Listed? then Failure(UnlistedError(ps[0]))
    else
      var rest :- ProviderNames(ps[1..]);
      Success([ps[0].providerName] + rest)
  }

  /** The provider-name comprehension succeeds exactly when every entry is
      listed, and then keeps every name in order. Otherwise it raises what
      the first falsy entry raises: KeyError for an empty object, TypeError
      for null. */
  lemma {:induction false} ProviderNamesSpec(ps: seq<Provider>)
    ensures ProviderNames(ps).Success? <==> forall i :: 0 <= i < |ps| ==> ps[i].Listed?
    ensures ProviderNames(ps).Success? ==>
      |ProviderNames(ps).value| == |ps| &&
      forall i :: 0 <= i < |ps| ==> ProviderNames(ps).value[i] == ps[i].providerName
    ensures ProviderNames(ps).Failure? ==>
      exists k :: 0 <= k < |ps| && !ps[k].Listed? && (forall i :: 0 <= i < k ==> ps[i].Listed?) &&
        ProviderNames(ps).error == UnlistedError(ps[k])
    decreases |ps|
  {
    if ps != [] {
      ProviderNamesSpec(ps[1..]);
      if ps[0].Listed? && ProviderNames(ps[1..]).Success? {
        var names := ProviderNames(ps).value;
        forall i | 0 <= i < |ps| ensures names[i] == ps[i].providerName {
          if i > 0 { assert ps[i] == ps[1..][i - 1]; }
        }
      }
      if !ps[0].Listed? {
        assert !(forall i :: 0 <= i < |ps| ==> ps[i].Listed?) by { assert !ps[0].Listed?; }
      } else if ProviderNames(ps[1..]).Failure? {
        var k :| 0 <= k < |ps[1..]| && !ps[1..][k].Listed? && (forall i :: 0 <= i < k ==> ps[1..][i].Listed?) &&
          ProviderNames(ps[1..]).error == UnlistedError(ps[1..][k]);
        assert ps[k + 1] == ps[1..][k];
        forall i | 0 <= i < k + 1 ensures ps[i].Listed? {
          if i > 0 { assert ps[i] == ps[1..][i - 1]; }
        }
      } else {
        forall i | 0 <= i < |ps| ensures ps[i].Listed? {
          if i > 0 { assert ps[i] == ps[1..][i - 1]; }
        }
      }
    }
  }

  /** A null entry after a listed one: the comprehension raises TypeError,
      where an empty object in its place raises KeyError. */
  lemma ProviderNamesExample()
    ensures ProviderNames([Listed("Netflix"), NullEntry]) == Failure(TypeError("provider_name"))
    ensures ProviderNames([Listed("Netflix"), EmptyEntry]) == Failure(KeyError("provider_name"))
    ensures ProviderNames([Listed("Netflix"), Listed("Hulu")]) == Success(["Netflix", "Hulu"])
  {
    assert [Listed("Netflix"), NullEntry][1..] == [NullEntry];
    assert [Listed("Netflix"), EmptyEntry][1..] == [EmptyEntry];
    assert [Listed("Netflix"), Listed("Hulu")][1..] == [Listed("Hulu")];
    assert [Listed("Hulu")][1..] == [];
    assert ProviderNames([Listed("Hulu")][1..]) == Success([]);
    assert ["Hulu"] + [] == ["Hulu"];
    assert ["Netflix"] + ["Hulu"] == ["Netflix", "Hulu"];
  }

  /** The crew loop of both normalisers: a Director's name is appended to
      `directors`, otherwise a Producer's name to `producers`; each key is
      created by its first append. */
  method CollectCrew(crew: seq<CrewMember>) returns (directors: Option<seq<string>>, producers: Option<seq<string>>)
    ensures directors == NonEmpty(CrewNames(crew, "Director"))
    ensures producers == NonEmpty(CrewNames(crew, "Producer"))
  {
    directors, producers := None, None;
    var i := 0;
    while i < |crew|
      invariant 0 <= i <= |crew|
      invariant directors == NonEmpty(CrewNames(crew[..i], "Director"))
      invariant producers == NonEmpty(CrewNames(crew[..i], "Producer"))
    {
      var member := crew[i];
      assert crew[..i + 1][..i] == crew[..i];
      CrewNamesStep(crew, i, "Director");
      CrewNamesStep(crew, i, "Producer");
      if member.job == "Director" {
        directors := Some(directors.GetOr([]) + [member.name]);
      } else if member.job == "Producer" {
        producers := Some(producers.GetOr([]) + [member.name]);
      }
      i := i + 1;
    }
    assert crew[..|crew|] == crew;
  }

  lemma CrewNamesStep(crew: seq<CrewMember>, i: nat, job: string)
    requires i < |crew|
    ensures CrewNames(crew[..i + 1], job) == if crew[i].job == job then CrewNames(crew[..i], job) + [crew[i].name] else CrewNames(crew[..i], job)
  {
    assert crew[..i + 1][..i] == crew[..i];
    assert CrewNames(crew[..i], job) + [] == CrewNames(crew[..i], job);
  }

  /** The cast loop of both normalisers: every credited member's name is
      appended, the list being created by the first append. */
  method CollectCredited(cast: seq<CastMember>) returns (names: Option<seq<string>>)
    ensures names == NonEmpty(CreditedNames(cast))
  {
    names := None;
    var i := 0;
    while i < |cast|
      invariant 0 <= i <= |cast|
      invariant names == NonEmpty(CreditedNames(cast[..i]))
    {
      var member := cast[i];
      assert cast[..i + 1][..i] == cast[..i];
      assert CreditedNames(cast[..i + 1]) == if Credited(member) then CreditedNames(cast[..i]) + [member.name] else CreditedNames(cast[..i]) by {
        assert CreditedNames(cast[..i]) + [] == CreditedNames(cast[..i]);
      }
      if member.knownForDepartment == "Acting" && !Contains(member.character, "(uncredited)") {
        names := Some(names.GetOr([]) + [member.name]);
      }
      i := i + 1;
    }
    assert cast[..|cast|] == cast;
  }

  /** Crew extraction is order-preserving: it distributes over concatenation. */
  lemma {:induction false} CrewNamesAppend(a: seq<CrewMember>, b: seq<CrewMember>, job: string)
    ensures CrewNames(a + b, job) == CrewNames(a, job) + CrewNames(b, job)
    decreases |b|
  {
    if b == [] {
      assert a + b == a;
    } else {
      var b' := b[..|b| - 1];
      assert (a + b)[..|a + b| - 1] == a + b';
      CrewNamesAppend(a, b', job);
    }
  }

  /** A name is extracted for `job` exactly when some crew member with that
      job carries it. */
  lemma {:induction false} CrewNamesMembers(crew: seq<CrewMember>, job: string, n: string)
    ensures n in CrewNames(crew, job) <==> exists i :: 0 <= i < |crew| && crew[i].job == job && crew[i].name == n
    decreases |crew|
  {
    if crew != [] {
      var init := crew[..|crew| - 1];
      CrewNamesMembers(init, job, n);
      if exists i :: 0 <= i < |init| && init[i].job == job && init[i].name == n {
        var i :| 0 <= i < |init| && init[i].job == job && init[i].name == n;
        assert crew[i] == init[i];
      }
      if exists i :: 0 <= i < |crew| && crew[i].job == job && crew[i].name == n {
        var i :| 0 <= i < |crew| && crew[i].job == job && crew[i].name == n;
        if i < |init| { assert init[i] == crew[i]; }
      }
    }
  }

  /** No crew member is counted as both a director and a producer: together
      the two lists are no longer than the crew. */
  lemma {:induction false} CrewRolesDisjoint(crew: seq<CrewMember>)
    ensures |CrewNames(crew, "Director")| + |CrewNames(crew, "Producer")| <= |crew|
    decreases |crew|
  {
    if crew != [] {
      CrewRolesDisjoint(crew[..|crew| - 1]);
    }
  }

  /** Cast extraction is order-preserving: it distributes over concatenation. */
  lemma {:induction false} CreditedNamesAppend(a: seq<CastMember>, b: seq<CastMember>)
    ensures CreditedNames(a + b) == CreditedNames(a) + CreditedNames(b)
    decreases |b|
  {
    if b == [] {
      assert a + b == a;
    } else {
      var b' := b[..|b| - 1];
      assert (a + b)[..|a + b| - 1] == a + b';
      CreditedNamesAppend(a, b');
    }
  }

  /** A name is listed exactly when some credited cast member carries it. */
  lemma {:induction false} CreditedNamesMembers(cast: seq<CastMember>, n: string)
    ensures n in CreditedNames(cast) <==> exists i :: 0 <= i < |cast| && Credited(cast[i]) && cast[i].name == n
    decreases |cast|
  {
    if cast != [] {
      var init := cast[..|cast| - 1];
      CreditedNamesMembers(init, n);
      if exists i :: 0 <= i < |init| && Credited(init[i]) && init[i].name == n {
        var i :| 0 <= i < |init| && Credited(init[i]) && init[i].name == n;
        assert cast[i] == init[i];
      }
      if exists i :: 0 <= i < |cast| && Credited(cast[i]) && cast[i].name == n {
        var i :| 0 <= i < |cast| && Credited(cast[i]) && cast[i].name == n;
        if i < |init| { assert init[i] == cast[i]; }
      }
    }
  }

  /** The crew example: two directors around a producer. */
  lemma CrewExample()
    ensures CrewNames([CrewMember("Director", "A"), CrewMember("Producer", "B"), CrewMember("Director", "C")], "Director") == ["A", "C"]
    ensures CrewNames([CrewMember("Director", "A"), CrewMember("Producer", "B"), CrewMember("Director", "C")], "Producer") == ["B"]
  {
    var crew := [CrewMember("Director", "A"), CrewMember("Producer", "B"), CrewMember("Director", "C")];
    assert crew[..2][..1] == crew[..1];
    assert crew[..1][..0] == [];
    assert CrewNames(crew[..1], "Director") == ["A"];
    assert CrewNames(crew[..1], "Producer") == [];
    assert CrewNames(crew[..2], "Director") == ["A"];
    assert CrewNames(crew[..2], "Producer") == ["B"];
    assert crew[..3][..2] == crew[..2];
    assert crew[..3] == crew;
  }
}
