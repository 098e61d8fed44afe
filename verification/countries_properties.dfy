/**
 * Properties of the cache service that relate several calls or several
 * inputs: case-insensitive lookup, the different treatment of an empty
 * upstream list by the list and refresh operations, a failed refresh
 * leaving the snapshot in place, and worked examples.
 */
module CountriesProperties {
  import opened Wrappers
  import opened ExternalApi
  import opened Collation
  import opened CountryDtos
  import opened NameSort
  import opened Countries

  /** Two spellings that lower-case alike find the same record, or both fail. */
  lemma LookupIgnoresCase(got: Result<seq<CountryDetails>>, a: string, b: string)
    requires ToLower(a) == ToLower(b)
    ensures Lookup(got, a).Ok? <==> Lookup(got, b).Ok?
    ensures Lookup(got, a).Ok? ==> Lookup(got, a).value == Lookup(got, b).value
  {
  }

  /** Asking with the already lower-cased name finds the same record. */
  lemma LookupOfLowercasedName(got: Result<seq<CountryDetails>>, name: string)
    ensures Lookup(got, ToLower(name)).Ok? <==> Lookup(got, name).Ok?
    ensures Lookup(got, name).Ok? ==> Lookup(got, ToLower(name)).value == Lookup(got, name).value
  {
    ToLowerIdempotent(name);
    LookupIgnoresCase(got, ToLower(name), name);
  }

  /** "south africa" and "South Africa" name the same record. */
  lemma SouthAfricaIgnoresCase(got: Result<seq<CountryDetails>>)
    ensures Lookup(got, "south africa").Ok? <==> Lookup(got, "South Africa").Ok?
    ensures Lookup(got, "south africa").Ok? ==> Lookup(got, "south africa").value == Lookup(got, "South Africa").value
  {
    assert ToLower("south africa") == ToLower("South Africa");
    LookupIgnoresCase(got, "south africa", "South Africa");
  }

  /** The list keeps the cache's order, so its names are sorted too. */
  lemma ListedInNameOrder(noFlagUrl: string, cmp: Comparator, slot: Option<seq<CountryDetails>>,
                          answers: nat -> FetchOutcome, calls: nat)
    requires IsConsistentComparator(cmp)
    requires SlotInvariant(cmp, slot)
    ensures var listed := Summaries(GetOrFetchRun(noFlagUrl, cmp, slot, answers, calls).result);
      listed.Ok? ==> forall i, j :: 0 <= i < j < |listed.value| ==> cmp(listed.value[i].name, listed.value[j].name) <= 0
  {
    var got := GetOrFetchRun(noFlagUrl, cmp, slot, answers, calls).result;
    var listed := Summaries(got);
    if listed.Ok? {
      forall i, j | 0 <= i < j < |listed.value| ensures cmp(listed.value[i].name, listed.value[j].name) <= 0 {
        assert listed.value[i].name == got.value[i].name;
        assert listed.value[j].name == got.value[j].name;
      }
    }
  }

  /**
   * An upstream list with no records deletes the cache entry. A refresh then
   * reports a count of 0, while a list request that has to fetch fails.
   */
  lemma EmptyUpstreamAsymmetry(noFlagUrl: string, cmp: Comparator, slot: Option<seq<CountryDetails>>,
                               answers: nat -> FetchOutcome, calls: nat)
    requires IsConsistentComparator(cmp)
    requires answers(calls) == Fetched(Some([]))
    ensures var refresh := LoadAndCacheRun(noFlagUrl, cmp, slot, answers, calls, false);
      && Report(refresh.result) == Ok(RefreshReport(RefreshedMessage, 0))
      && refresh.slot == None
    ensures var read := GetOrFetchRun(noFlagUrl, cmp, slot, answers, calls);
      !IsWarm(slot) ==> Summaries(read.result) == Err(InternalServerError(NoDataMessage)) && read.slot == None
  {
  }

  /**
   * A refresh whose two attempts both fail raises an internal server error
   * and keeps the entry. A later list request is then served from the old
   * snapshot without a fetch; with no snapshot it fails the same way when the
   * upstream keeps failing.
   */
  lemma FailedRefreshKeepsSnapshot(noFlagUrl: string, cmp: Comparator, slot: Option<seq<CountryDetails>>,
                                   answers: nat -> FetchOutcome, calls: nat)
    requires IsConsistentComparator(cmp)
    requires answers(calls).Failed? && answers(calls + 1).Failed?
    ensures var refresh := LoadAndCacheRun(noFlagUrl, cmp, slot, answers, calls, false);
      && Report(refresh.result) == Err(InternalServerError(LoadFailedMessage))
      && refresh.slot == slot
      && refresh.fetches == 2
    ensures var read := GetOrFetchRun(noFlagUrl, cmp, slot, answers, calls + 2);
      IsWarm(slot) ==> Summaries(read.result) == Summaries(Ok(slot.value)) && read.fetches == 0
    ensures var read := GetOrFetchRun(noFlagUrl, cmp, slot, answers, calls + 2);
      !IsWarm(slot) && answers(calls + 2).Failed? && answers(calls + 3).Failed? ==>
        Summaries(read.result) == Err(InternalServerError(LoadFailedMessage))
  {
  }

  const Zeta := RestCountry(RestCountryName("Zeta", "Zeta"), 5, Some(["Z City"]), RestCountryFlag(None, Some("z.svg"), None))
  const Alpha := RestCountry(RestCountryName("Alpha", "Alpha"), 3, None, RestCountryFlag(Some("a.png"), None, None))

  /**
   * With a cold cache and an upstream answering Zeta then Alpha, the list
   * comes back as Alpha then Zeta, and "ALPHA" finds Alpha with no capital.
   */
  lemma ZetaAlphaExample(noFlagUrl: string, cmp: Comparator, answers: nat -> FetchOutcome, calls: nat)
    requires IsConsistentComparator(cmp)
    requires cmp("Alpha", "Zeta") < 0
    requires answers(calls) == Fetched(Some([Zeta, Alpha]))
    ensures var read := GetOrFetchRun(noFlagUrl, cmp, None, answers, calls);
      && Summaries(read.result) == Ok([Country("Alpha", "a.png"), Country("Zeta", "z.svg")])
      && Lookup(read.result, "ALPHA") == Ok(CountryDetails("Alpha", "a.png", 3, "N/A"))
  {
    var a := CountryDetails("Alpha", "a.png", 3, "N/A");
    var z := CountryDetails("Zeta", "z.svg", 5, "Z City");
    ZetaAlphaSorted(noFlagUrl, cmp);
    assert StoreFetched(noFlagUrl, cmp, Some([Zeta, Alpha])).result == Ok([a, z]);
    SummariesOfAlphaZeta(a, z);
    LookupAlpha(a, z);
  }

  lemma ZetaAlphaSorted(noFlagUrl: string, cmp: Comparator)
    requires IsConsistentComparator(cmp)
    requires cmp("Alpha", "Zeta") < 0
    ensures SortByName(cmp, TransformAll(noFlagUrl, [Zeta, Alpha]))
         == [CountryDetails("Alpha", "a.png", 3, "N/A"), CountryDetails("Zeta", "z.svg", 5, "Z City")]
  {
    var z := TransformToCountryDetails(noFlagUrl, Zeta);
    var a := TransformToCountryDetails(noFlagUrl, Alpha);
    assert z == CountryDetails("Zeta", "z.svg", 5, "Z City");
    assert a == CountryDetails("Alpha", "a.png", 3, "N/A");
    assert TransformAll(noFlagUrl, [Zeta, Alpha]) == [z, a];
    assert SortByName(cmp, [a]) == [a];
    assert [z, a][1..] == [a];
    assert cmp(z.name, a.name) > 0;
  }

  lemma SummariesOfAlphaZeta(a: CountryDetails, z: CountryDetails)
    requires a == CountryDetails("Alpha", "a.png", 3, "N/A") && z == CountryDetails("Zeta", "z.svg", 5, "Z City")
    ensures Summaries(Ok([a, z])) == Ok([Country("Alpha", "a.png"), Country("Zeta", "z.svg")])
  {
    var listed := Summaries(Ok([a, z])).value;
    assert listed[0] == Country("Alpha", "a.png") && listed[1] == Country("Zeta", "z.svg");
    assert listed == [Country("Alpha", "a.png"), Country("Zeta", "z.svg")];
  }

  lemma LookupAlpha(a: CountryDetails, z: CountryDetails)
    requires a == CountryDetails("Alpha", "a.png", 3, "N/A")
    ensures Lookup(Ok([a, z]), "ALPHA") == Ok(a)
  {
    assert ToLower("ALPHA") == ToLower("Alpha");
    assert FirstMatch([a, z], ToLower("ALPHA")) == Some(0);
  }

  const Flagless := RestCountry(RestCountryName("Nowhere", "Nowhere"), 0, None, RestCountryFlag(None, None, None))

  /**
   * A record with neither flag URL: the transform as written throws, so the
   * whole load lands in the retry path, while the intended transform gives
   * the placeholder flag and the load caches the record.
   */
  lemma FlaglessRecordThrows(noFlagUrl: string, cmp: Comparator)
    requires IsConsistentComparator(cmp)
    ensures TransformUnbound(Flagless) == None
    ensures TransformAllUnbound([Flagless]) == None
    ensures TransformToCountryDetails(noFlagUrl, Flagless) == CountryDetails("Nowhere", noFlagUrl, 0, NoCapital)
    ensures StoreFetched(noFlagUrl, cmp, Some([Flagless])).result == Ok([CountryDetails("Nowhere", noFlagUrl, 0, NoCapital)])
  {
    assert TransformUnbound([Flagless][0]) == None;
    var d := TransformToCountryDetails(noFlagUrl, Flagless);
    assert TransformAll(noFlagUrl, [Flagless]) == [d];
    assert SortByName(cmp, [d]) == [d];
  }

  /**
   * With the upstream answering one flagless record on both attempts, the
   * load as written fails after two fetches and keeps the slot, so a refresh,
   * and a list request whenever it has to load, both raise the internal
   * server error; the
   * intended load caches the record with the placeholder flag after one fetch.
   */
  lemma FlaglessTwiceFails(noFlagUrl: string, cmp: Comparator, slot: Option<seq<CountryDetails>>,
                           answers: nat -> FetchOutcome, calls: nat)
    requires IsConsistentComparator(cmp)
    requires answers(calls) == Fetched(Some([Flagless])) && answers(calls + 1) == Fetched(Some([Flagless]))
    ensures LoadAndCacheRunAsWritten(cmp, slot, answers, calls, false)
         == LoadRun(Err(InternalServerError(LoadFailedMessage)), slot, 2)
    ensures Report(LoadAndCacheRunAsWritten(cmp, slot, answers, calls, false).result)
         == Err(InternalServerError(LoadFailedMessage))
    ensures Summaries(LoadAndCacheRunAsWritten(cmp, slot, answers, calls, false).result)
         == Err(InternalServerError(LoadFailedMessage))
    ensures var intended := CountryDetails("Nowhere", noFlagUrl, 0, NoCapital);
      LoadAndCacheRun(noFlagUrl, cmp, slot, answers, calls, false) == LoadRun(Ok([intended]), Some([intended]), 1)
  {
    FlaglessRecordThrows(noFlagUrl, cmp);
    assert AttemptThrows(answers(calls)) && AttemptThrows(answers(calls + 1));
  }
}
