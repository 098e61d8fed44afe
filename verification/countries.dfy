/**
 * The country cache service: it normalises the upstream records, keeps the
 * sorted list in one cache slot (key `all_countries_data_v1`), reads through
 * that slot, retries a failed load exactly once, and answers the list,
 * lookup and refresh operations.
 *
 * The pure functions below describe one run of each operation from the slot
 * before the call and the fetcher's answers; the class `CountriesService`
 * performs the operations on its state and is proved to agree with them.
 */
module Countries {
  import opened Wrappers
  import opened ExternalApi
  import opened Collation
  import opened CountryDtos
  import opened NameSort

  const AllCountriesCacheKey := "all_countries_data_v1"
  const DefaultNoFlagUrl := "https://placehold.co/60x40?text=No+Flag"
  const NoCapital := "N/A"
  const LoadFailedMessage := "Failed to update country data from external source."
  const NoDataMessage := "No country data available."
  const RefreshedMessage := "Country cache refreshed successfully."

  /** The two exceptions the service raises: HTTP 500 and HTTP 404. */
  datatype ServiceError = InternalServerError(message: string) | NotFound(requested: string) {
    /** The exception's message; a not-found one names the requested country as written. */
    function Message(): (m: string)
      ensures NotFound? ==> m == "Country with name \"" + requested + "\" not found"
      ensures InternalServerError? ==> m == message
    {
      match this
      case InternalServerError(m) => m
      case NotFound(n) => "Country with name \"" + n + "\" not found"
    }
  }

  /** A resolved promise, or a rejected one carrying the exception. */
  datatype Result<+T> = Ok(value: T) | Err(error: ServiceError)

  /** The reply of a refresh. */
  datatype RefreshReport = RefreshReport(message: string, count: nat)

  // ---------------------------------------------------------------------
  // Normalisation

  /** JavaScript truthiness of an optional string: present and non-empty. */
  predicate Truthy(s: Option<string>) {
    s.Some? && s.value != ""
  }

  /** `a || b` for an optional string `a` and a string `b`. */
  function Or(a: Option<string>, b: string): string {
    if Truthy(a) then a.value else b
  }

  /** `capital?.[0]`: `undefined` when the list is absent or empty. */
  function FirstCapital(capital: Option<seq<string>>): Option<string> {
    if capital.Some? && |capital.value| > 0 then Some(capital.value[0]) else None
  }

  /**
   * One upstream record as the service stores it: SVG flag before PNG flag
   * before the configured placeholder, first capital or "N/A"; empty strings
   * count as missing.
   */
  function TransformToCountryDetails(noFlagUrl: string, c: RestCountry): (d: CountryDetails)
    ensures d.name == c.name.common && d.population == c.population
    ensures Truthy(c.flags.svg) ==> d.flag == c.flags.svg.value
    ensures !Truthy(c.flags.svg) && Truthy(c.flags.png) ==> d.flag == c.flags.png.value
    ensures !Truthy(c.flags.svg) && !Truthy(c.flags.png) ==> d.flag == noFlagUrl
    ensures c.capital.Some? && |c.capital.value| > 0 && c.capital.value[0] != "" ==> d.capital == c.capital.value[0]
    ensures !(c.capital.Some? && |c.capital.value| > 0 && c.capital.value[0] != "") ==> d.capital == NoCapital
    ensures d.capital != ""
    ensures noFlagUrl != "" ==> d.flag != ""
  {
    CountryDetails(
      c.name.common,
      Or(c.flags.svg, Or(c.flags.png, noFlagUrl)),
      c.population,
      Or(FirstCapital(c.capital), NoCapital))
  }

  /** `rawCountries.map(...)`: one normalised record per raw record, in order. */
  function TransformAll(noFlagUrl: string, raws: seq<RestCountry>): (ds: seq<CountryDetails>)
    ensures |ds| == |raws|
    ensures forall i :: 0 <= i < |raws| ==> ds[i] == TransformToCountryDetails(noFlagUrl, raws[i])
  {
    seq(|raws|, i requires 0 <= i < |raws| => TransformToCountryDetails(noFlagUrl, raws[i]))
  }

  /**
   * The transform as the load actually calls it: `map` receives the method
   * unbound, so `this` is `undefined` inside it and reading `this.noFlagUrl`
   * throws a TypeError (`None` here). The `||` chain only reaches that read
   * when neither flag URL is truthy.
   */
  function TransformUnbound(c: RestCountry): (d: Option<CountryDetails>)
    ensures d.None? <==> !Truthy(c.flags.svg) && !Truthy(c.flags.png)
    ensures d.Some? ==> forall url :: d.value == TransformToCountryDetails(url, c)
  {
    if !Truthy(c.flags.svg) && !Truthy(c.flags.png) then None
    else
      var flag := if Truthy(c.flags.svg) then c.flags.svg.value else c.flags.png.value;
      Some(CountryDetails(c.name.common, flag, c.population, Or(FirstCapital(c.capital), NoCapital)))
  }

  /** `rawCountries.map(this.transformToCountryDetailsDto)` as written: it throws if any record throws. */
  function TransformAllUnbound(raws: seq<RestCountry>): (ds: Option<seq<CountryDetails>>)
    ensures ds.None? <==> exists i :: 0 <= i < |raws| && TransformUnbound(raws[i]).None?
    ensures ds.Some? ==> forall url :: ds.value == TransformAll(url, raws)
  {
    if raws == [] then Some([])
    else
      match (TransformUnbound(raws[0]), TransformAllUnbound(raws[1..]))
      case (Some(d), Some(ds)) =>
        assert forall url :: [d] + ds == TransformAll(url, raws) by {
          forall url ensures [d] + ds == TransformAll(url, raws) {
            assert ds == TransformAll(url, raws[1..]);
          }
        }
        Some([d] + ds)
      case (None, _) => None
      case (_, None) =>
        assert exists i :: 0 <= i < |raws| && TransformUnbound(raws[i]).None? by {
          var k :| 0 <= k < |raws| - 1 && TransformUnbound(raws[1..][k]).None?;
          assert raws[k + 1] == raws[1..][k];
        }
        None
  }

  // ---------------------------------------------------------------------
  // One run of the cache operations

  /**
   * What one call did: its result, the cache slot afterwards (`None` when
   * the key is absent) and how many times it called the fetcher.
   */
  datatype LoadRun = LoadRun(result: Result<seq<CountryDetails>>, slot: Option<seq<CountryDetails>>, fetches: nat)

  /** What the cache slot always satisfies: absent, or a non-empty list sorted by name. */
  ghost predicate SlotInvariant(cmp: Comparator, slot: Option<seq<CountryDetails>>) {
    slot.Some? ==> |slot.value| > 0 && SortedByName(cmp, slot.value)
  }

  /** The slot holds data that a read may serve without fetching. */
  predicate IsWarm(slot: Option<seq<CountryDetails>>) {
    slot.Some? && |slot.value| > 0
  }

  /**
   * A fetch that resolved with `data`: an empty (or missing) body deletes the
   * key and yields `[]`; otherwise the normalised, sorted list replaces
   * whatever the slot held and is returned.
   */
  function StoreFetched(noFlagUrl: string, cmp: Comparator, data: Option<seq<RestCountry>>): (run: LoadRun)
    requires IsConsistentComparator(cmp)
    ensures run.fetches == 1 && run.result.Ok?
    ensures data.None? || data.value == [] ==> run.result.value == [] && run.slot == None
    ensures data.Some? && data.value != [] ==>
      && |run.result.value| == |data.value|
      && SortedByName(cmp, run.result.value)
      && multiset(run.result.value) == multiset(TransformAll(noFlagUrl, data.value))
      && run.slot == Some(run.result.value)
    ensures SlotInvariant(cmp, run.slot)
  {
    if data.None? || |data.value| == 0 then
      LoadRun(Ok([]), None, 1)
    else
      var loaded := SortByName(cmp, TransformAll(noFlagUrl, data.value));
      SortByNameSorted(cmp, TransformAll(noFlagUrl, data.value));
      LoadRun(Ok(loaded), Some(loaded), 1)
  }

  /**
   * `loadAndCacheCountries(isRetry)` started with the slot `slot` when the
   * fetcher had been called `calls` times: a failed first attempt is retried
   * once (only when `isRetry` is false); a failed last attempt raises an
   * internal server error and leaves the slot as it was.
   */
  function LoadAndCacheRun(noFlagUrl: string, cmp: Comparator, slot: Option<seq<CountryDetails>>,
                           answers: nat -> FetchOutcome, calls: nat, isRetry: bool): (run: LoadRun)
    requires IsConsistentComparator(cmp)
    decreases !isRetry
    ensures 1 <= run.fetches <= 2
    ensures run.fetches == 2 <==> !isRetry && answers(calls).Failed?
    ensures answers(calls).Fetched? ==> run == StoreFetched(noFlagUrl, cmp, answers(calls).data)
    ensures answers(calls).Failed? && !isRetry && answers(calls + 1).Fetched? ==>
      run == StoreFetched(noFlagUrl, cmp, answers(calls + 1).data).(fetches := 2)
    ensures run.result.Err? <==> answers(calls).Failed? && (isRetry || answers(calls + 1).Failed?)
    ensures run.result.Err? ==> run.result.error == InternalServerError(LoadFailedMessage) && run.slot == slot
    ensures SlotInvariant(cmp, slot) ==> SlotInvariant(cmp, run.slot)
  {
    match answers(calls)
    case Fetched(data) => StoreFetched(noFlagUrl, cmp, data)
    case Failed(_) =>
      if isRetry then LoadRun(Err(InternalServerError(LoadFailedMessage)), slot, 1)
      else
        var retried := LoadAndCacheRun(noFlagUrl, cmp, slot, answers, calls + 1, true);
        retried.(fetches := retried.fetches + 1)
  }

  /**
   * An attempt of the load as written ends in its `catch`: the fetch was
   * rejected, or the body is non-empty and the unbound mapping throws.
   */
  predicate AttemptThrows(outcome: FetchOutcome) {
    || outcome.Failed?
    || (outcome.data.Some? && outcome.data.value != [] && TransformAllUnbound(outcome.data.value).None?)
  }

  /**
   * `loadAndCacheCountries(isRetry)` as written, with the unbound mapping: a
   * mapping that throws is caught like a failed fetch, retried once, and then
   * raises the internal server error with the slot untouched.
   */
  function LoadAndCacheRunAsWritten(cmp: Comparator, slot: Option<seq<CountryDetails>>,
                                    answers: nat -> FetchOutcome, calls: nat, isRetry: bool): (run: LoadRun)
    requires IsConsistentComparator(cmp)
    decreases !isRetry
    ensures 1 <= run.fetches <= 2
    ensures run.fetches == 2 <==> !isRetry && AttemptThrows(answers(calls))
    ensures run.result.Err? <==> AttemptThrows(answers(calls)) && (isRetry || AttemptThrows(answers(calls + 1)))
    ensures run.result.Err? ==> run.result.error == InternalServerError(LoadFailedMessage) && run.slot == slot
    ensures !AttemptThrows(answers(calls)) ==>
      forall noFlagUrl :: run == LoadAndCacheRun(noFlagUrl, cmp, slot, answers, calls, isRetry)
    ensures var retried := answers(calls + 1);
      AttemptThrows(answers(calls)) && !isRetry && !AttemptThrows(retried) ==>
        forall noFlagUrl ::
          && run.result == StoreFetched(noFlagUrl, cmp, retried.data).result
          && run.slot == StoreFetched(noFlagUrl, cmp, retried.data).slot
    ensures SlotInvariant(cmp, slot) ==> SlotInvariant(cmp, run.slot)
  {
    var outcome := answers(calls);
    if !AttemptThrows(outcome) then
      if outcome.data.None? || |outcome.data.value| == 0 then LoadRun(Ok([]), None, 1)
      else
        var loaded := SortByName(cmp, TransformAllUnbound(outcome.data.value).value);
        SortByNameSorted(cmp, TransformAllUnbound(outcome.data.value).value);
        LoadRun(Ok(loaded), Some(loaded), 1)
    else if isRetry then LoadRun(Err(InternalServerError(LoadFailedMessage)), slot, 1)
    else
      var retried := LoadAndCacheRunAsWritten(cmp, slot, answers, calls + 1, true);
      retried.(fetches := retried.fetches + 1)
  }

  /**
   * `getCountriesFromCacheOrFetch()`: a warm slot is served as it is, without
   * a fetch; otherwise the data comes from a full load with its retry.
   */
  function GetOrFetchRun(noFlagUrl: string, cmp: Comparator, slot: Option<seq<CountryDetails>>,
                         answers: nat -> FetchOutcome, calls: nat): (run: LoadRun)
    requires IsConsistentComparator(cmp)
    ensures IsWarm(slot) ==> run.result == Ok(slot.value) && run.slot == slot && run.fetches == 0
    ensures !IsWarm(slot) ==> run == LoadAndCacheRun(noFlagUrl, cmp, slot, answers, calls, false)
    ensures SlotInvariant(cmp, slot) && run.result.Ok? ==> SortedByName(cmp, run.result.value)
    ensures SlotInvariant(cmp, slot) ==> SlotInvariant(cmp, run.slot)
  {
    if IsWarm(slot) then LoadRun(Ok(slot.value), slot, 0)
    else LoadAndCacheRun(noFlagUrl, cmp, slot, answers, calls, false)
  }

  // ---------------------------------------------------------------------
  // The three public answers, from the data obtained

  /**
   * `findAll()` given what the cache-aside read produced: its error is passed
   * on, an empty list is an internal server error, and otherwise each record
   * is cut down to name and flag, in the same order.
   */
  function Summaries(got: Result<seq<CountryDetails>>): (r: Result<seq<Country>>)
    ensures r.Err? <==> got.Err? || got.value == []
    ensures got.Err? ==> r.error == got.error
    ensures got.Ok? && got.value == [] ==> r.error == InternalServerError(NoDataMessage)
    ensures r.Ok? ==>
      && |r.value| == |got.value|
      && forall i :: 0 <= i < |r.value| ==> r.value[i] == Country(got.value[i].name, got.value[i].flag)
  {
    match got
    case Err(e) => Err(e)
    case Ok(details) =>
      if |details| == 0 then Err(InternalServerError(NoDataMessage))
      else Ok(seq(|details|, i requires 0 <= i < |details| => Country(details[i].name, details[i].flag)))
  }

  /** The index of the first record whose lower-cased name is `nameLower`. */
  function FirstMatch(details: seq<CountryDetails>, nameLower: string): (k: Option<nat>)
    ensures k.Some? ==>
      && k.value < |details|
      && ToLower(details[k.value].name) == nameLower
      && forall j :: 0 <= j < k.value ==> ToLower(details[j].name) != nameLower
    ensures k.None? ==> forall j :: 0 <= j < |details| ==> ToLower(details[j].name) != nameLower
  {
    if details == [] then None
    else if ToLower(details[0].name) == nameLower then Some(0)
    else
      match FirstMatch(details[1..], nameLower)
      case None => None
      case Some(k) => Some(k + 1)
  }

  /**
   * `findOne(name)` given what the cache-aside read produced: the first record
   * whose name equals `name` ignoring case, else a not-found error naming
   * `name` as the caller wrote it.
   */
  function Lookup(got: Result<seq<CountryDetails>>, name: string): (r: Result<CountryDetails>)
    ensures got.Err? ==> r == Err(got.error)
    ensures got.Ok? && r.Ok? ==>
      exists i :: 0 <= i < |got.value| && got.value[i] == r.value
        && ToLower(r.value.name) == ToLower(name)
        && forall j :: 0 <= j < i ==> ToLower(got.value[j].name) != ToLower(name)
    ensures got.Ok? && r.Err? ==>
      && r.error == NotFound(name)
      && r.error.Message() == "Country with name \"" + name + "\" not found"
      && forall c :: c in got.value ==> ToLower(c.name) != ToLower(name)
  {
    match got
    case Err(e) => Err(e)
    case Ok(details) =>
      match FirstMatch(details, ToLower(name))
      case None => Err(NotFound(name))
      case Some(k) => Ok(details[k])
  }

  /** `refreshCache()` given the load it forced: the count of records loaded, zero included. */
  function Report(loaded: Result<seq<CountryDetails>>): (r: Result<RefreshReport>)
    ensures r.Ok? <==> loaded.Ok?
    ensures loaded.Ok? ==> r.value == RefreshReport(RefreshedMessage, |loaded.value|)
    ensures loaded.Err? ==> r.error == loaded.error
  {
    match loaded
    case Err(e) => Err(e)
    case Ok(details) => Ok(RefreshReport(RefreshedMessage, |details|))
  }

  // ---------------------------------------------------------------------
  // The service

  class CountriesService {
    const externalApi: ExternalApiService
    const noFlagUrl: string
    const localeCompare: Comparator
    /** The cache entry under `AllCountriesCacheKey`; `None` when the key is absent. */
    var slot: Option<seq<CountryDetails>>

    ghost predicate Valid()
      reads this
    {
      IsConsistentComparator(localeCompare) && SlotInvariant(localeCompare, slot)
    }

    /** `NO_CFLAG_URL` from the configuration, or the placeholder default. */
    constructor (externalApi: ExternalApiService, configuredNoFlagUrl: Option<string>, localeCompare: Comparator)
      requires IsConsistentComparator(localeCompare)
      ensures Valid()
      ensures this.externalApi == externalApi && this.localeCompare == localeCompare
      ensures noFlagUrl == configuredNoFlagUrl.GetOr(DefaultNoFlagUrl)
      ensures slot == None
    {
      this.externalApi := externalApi;
      this.localeCompare := localeCompare;
      noFlagUrl := configuredNoFlagUrl.GetOr(DefaultNoFlagUrl);
      slot := None;
    }

    method LoadAndCacheCountries(isRetry: bool) returns (r: Result<seq<CountryDetails>>)
      requires Valid()
      modifies this, externalApi
      decreases !isRetry
      ensures Valid()
      ensures var run := LoadAndCacheRun(noFlagUrl, localeCompare, old(slot), externalApi.answers, old(externalApi.calls), isRetry);
        && r == run.result
        && slot == run.slot
        && externalApi.calls == old(externalApi.calls) + run.fetches
    {
      var outcome := externalApi.FetchAllCountries();
      match outcome
      case Fetched(data) =>
        if data.None? || |data.value| == 0 {
          slot := None;
          r := Ok([]);
        } else {
          var transformed := SortByName(localeCompare, TransformAll(noFlagUrl, data.value));
          SortByNameSorted(localeCompare, TransformAll(noFlagUrl, data.value));
          slot := Some(transformed);
          r := Ok(transformed);
        }
      case Failed(_) =>
        if !isRetry {
          r := LoadAndCacheCountries(true);
        } else {
          r := Err(InternalServerError(LoadFailedMessage));
        }
    }

    method GetCountriesFromCacheOrFetch() returns (r: Result<seq<CountryDetails>>)
      requires Valid()
      modifies this, externalApi
      ensures Valid()
      ensures var run := GetOrFetchRun(noFlagUrl, localeCompare, old(slot), externalApi.answers, old(externalApi.calls));
        && r == run.result
        && slot == run.slot
        && externalApi.calls == old(externalApi.calls) + run.fetches
    {
      var cached := slot;
      if cached.Some? && |cached.value| > 0 {
        r := Ok(cached.value);
      } else {
        r := LoadAndCacheCountries(false);
      }
    }

    method FindAll() returns (r: Result<seq<Country>>)
      requires Valid()
      modifies this, externalApi
      ensures Valid()
      ensures var run := GetOrFetchRun(noFlagUrl, localeCompare, old(slot), externalApi.answers, old(externalApi.calls));
        && r == Summaries(run.result)
        && slot == run.slot
        && externalApi.calls == old(externalApi.calls) + run.fetches
    {
      var all := GetCountriesFromCacheOrFetch();
      r := Summaries(all);
    }

    method FindOne(name: string) returns (r: Result<CountryDetails>)
      requires Valid()
      modifies this, externalApi
      ensures Valid()
      ensures var run := GetOrFetchRun(noFlagUrl, localeCompare, old(slot), externalApi.answers, old(externalApi.calls));
        && r == Lookup(run.result, name)
        && slot == run.slot
        && externalApi.calls == old(externalApi.calls) + run.fetches
    {
      var all := GetCountriesFromCacheOrFetch();
      r := Lookup(all, name);
    }

    method RefreshCache() returns (r: Result<RefreshReport>)
      requires Valid()
      modifies this, externalApi
      ensures Valid()
      ensures var run := LoadAndCacheRun(noFlagUrl, localeCompare, old(slot), externalApi.answers, old(externalApi.calls), false);
        && r == Report(run.result)
        && slot == run.slot
        && externalApi.calls == old(externalApi.calls) + run.fetches
    {
      var refreshed := LoadAndCacheCountries(false);
      r := Report(refreshed);
    }

    /** Startup pre-warm: one load; any failure is swallowed. */
    method OnModuleInit()
      requires Valid()
      modifies this, externalApi
      ensures Valid()
      ensures var run := LoadAndCacheRun(noFlagUrl, localeCompare, old(slot), externalApi.answers, old(externalApi.calls), false);
        && slot == run.slot
        && externalApi.calls == old(externalApi.calls) + run.fetches
    {
      var _ := LoadAndCacheCountries(false);
    }
  }
}
