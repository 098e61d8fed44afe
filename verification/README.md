# Country cache service, modelled in Dafny

This project models the country cache service of the flag-explorer API
(`CountriesService` in `src/countries/countries.service.ts`). The service
fetches the full country list from an upstream provider and normalises each
record: SVG flag, else PNG flag, else a configured placeholder; first capital,
else `"N/A"`. That is the intended normalisation; as written, the placeholder
branch throws (see "## Findings"). It sorts the records by name with the locale comparator and
keeps them in a single cache slot under the key `all_countries_data_v1`.
On top of that slot it offers three operations:

- a cache-aside list (`findAll`), which fails on an empty catalogue;
- a case-insensitive lookup (`findOne`), which raises not-found naming the caller's spelling;
- a forced refresh (`refreshCache`), which reports a count (0 allowed).

A failed load is retried exactly once. A second failure raises an internal
server error and leaves the cache as it was. Startup pre-warms the cache and
swallows any failure.

Layout:

- `wrappers.dfy` (`Wrappers`): `Option`, used for values that may be `undefined`.
- `external_api.dfy` (`ExternalApi`): the upstream record shape (`RestCountry`) and the fetcher as an oracle. `ExternalApiService` holds a fixed answer for each call number (`answers: nat -> FetchOutcome`) and a call counter.
- `country_dtos.dfy` (`CountryDtos`): `Country` (name, flag) and `CountryDetails`.
- `collation.dfy` (`Collation`): the comparator behind `localeCompare`, kept abstract and required to be consistent. Also an ASCII `toLowerCase`.
- `name_sort.dfy` (`NameSort`): the sort by name, a stable insertion sort, with its proofs.
- `countries.dfy` (`Countries`): normalisation and pure "run" functions, plus the class `CountriesService`. A run function takes the slot before a call and the fetcher's answers. It gives the result, the slot after the call and the number of fetches. Each method of the class changes `slot` and the fetcher's counter, and is proved to agree with its run function.
- `countries_properties.dfy` (`CountriesProperties`): properties that span several calls or inputs, and worked examples.

The retry is modelled as in the source: `loadAndCacheCountries(false)` calls
itself once with `isRetry = true`. It is a recursive method, not a loop.

Where the tests and the code disagree, the model follows the code. The unit
test at `test/modules/countries/countries.service.spec.ts:117-123` expects
`findAll` to return `[]` when the upstream list is empty. The code raises an
internal server error there (`src/countries/countries.service.ts:78-81`).
`Countries.Summaries` and `CountriesProperties.EmptyUpstreamAsymmetry` state
the code's behaviour.

## Model

| member | source | states |
|---|---|---|
| `ExternalApi.ExternalApiService.FetchAllCountries` | src/external-api/external-api.service.ts:35-48 | one attempt per call and no retry at this layer: returns the answer for the current call number and advances the counter by one |
| `Collation.ToLower` | src/countries/countries.service.ts:90-91 | lower-casing keeps the length and maps each ASCII upper-case letter to its lower-case form, leaving every other character alone |
| `Collation.ToLowerIdempotent` | src/countries/countries.service.ts:90-91 | lower-casing an already lower-cased name changes nothing |
| `NameSort.Insert` | src/countries/countries.service.ts:50 | inserting one record adds exactly that record (multiset) |
| `NameSort.InsertKeepsSorted` | src/countries/countries.service.ts:50 | under a consistent comparator, inserting into a name-sorted list keeps it name-sorted |
| `NameSort.SortByName` | src/countries/countries.service.ts:50 | the sort keeps the length and is a permutation of its input |
| `NameSort.SortByNameSorted` | src/countries/countries.service.ts:50 | under a consistent comparator the sort's output is ordered by name pairwise |
| `Countries.TransformToCountryDetails` | src/countries/countries.service.ts:30-37 | name and population are copied. The flag is a non-empty SVG, else a non-empty PNG, else the placeholder URL. The capital is a non-empty first capital, else exactly "N/A", so it is never empty |
| `Countries.TransformAll` | src/countries/countries.service.ts:48-49 | one normalised record per raw record, position by position |
| `Countries.TransformUnbound` | src/countries/countries.service.ts:33 | the transform as `map` calls it throws exactly when neither flag URL is truthy; otherwise it agrees with the intended transform for every placeholder URL |
| `Countries.TransformAllUnbound` | src/countries/countries.service.ts:48-49 | the mapping as written throws iff some record throws; otherwise it equals the intended mapping |
| `Countries.LoadAndCacheRunAsWritten` | src/countries/countries.service.ts:39-64 | the load as written, where a mapping that throws (line 49) is caught at line 55 like a failed fetch. It makes one or two fetches, and two exactly when a non-retry first attempt throws. It fails iff every attempt threw, with the internal-server-error message and the slot unchanged. When the first attempt does not throw it equals the intended load for every placeholder URL; when a non-retry first attempt throws and the retry does not, its result and slot are those of a single successful load of the retried body, after two fetches. The slot invariant is preserved |
| `Countries.StoreFetched` | src/countries/countries.service.ts:41-54 | after one resolved fetch the result is always success. An empty or missing body deletes the slot and returns `[]`. Otherwise the result has the input's length, is sorted by name, is a permutation of the normalised records, and becomes the slot's value |
| `Countries.LoadAndCacheRun` | src/countries/countries.service.ts:39-64 | the fetcher is called once or twice, and twice exactly when a first attempt fails and is not itself a retry. A resolved first or retried answer behaves as a single successful load. It fails iff every attempt it made failed, with the source's internal-server-error message and the slot unchanged. The slot invariant is preserved |
| `Countries.GetOrFetchRun` | src/countries/countries.service.ts:66-74 | a non-empty cached list is returned with zero fetches and an unchanged slot; otherwise the read equals `loadAndCacheCountries(false)`. Successful data is sorted by name and the slot invariant is preserved |
| `Countries.Summaries` | src/countries/countries.service.ts:76-86 | fails iff the read failed (same error) or was empty (the "No country data available." error). Otherwise the list has the same length and element i is the name and flag of record i |
| `Countries.FirstMatch` | src/countries/countries.service.ts:91 | finds the first index whose lower-cased name equals the lower-cased argument, or reports that no index matches |
| `Countries.Lookup` | src/countries/countries.service.ts:88-98 | on success the record is in the data, its name matches ignoring case, and no earlier record matches. Otherwise the error is NotFound carrying the argument as written, its message is `Country with name "<name>" not found`, and no record matches. A read failure is passed on |
| `Countries.Report` | src/countries/countries.service.ts:100-104 | succeeds iff the load succeeded, with the fixed message and a count equal to the loaded length (0 allowed); a load error is passed on |
| `Countries.CountriesService.constructor` | src/countries/countries.service.ts:15-21 | the placeholder URL is the configured one or the default placeholder; the slot starts absent |
| `Countries.CountriesService.LoadAndCacheCountries` | src/countries/countries.service.ts:39-64 | result, new slot and number of fetch calls are those of `LoadAndCacheRun` from the old slot; the slot invariant (absent, or non-empty and sorted) is kept |
| `Countries.CountriesService.GetCountriesFromCacheOrFetch` | src/countries/countries.service.ts:66-74 | result, new slot and fetch count are those of `GetOrFetchRun` |
| `Countries.CountriesService.FindAll` | src/countries/countries.service.ts:76-86 | the result is `Summaries` of the cache-aside read, whose slot and fetch count it takes over |
| `Countries.CountriesService.FindOne` | src/countries/countries.service.ts:88-98 | the result is `Lookup` on the cache-aside read, whose slot and fetch count it takes over |
| `Countries.CountriesService.RefreshCache` | src/countries/countries.service.ts:100-104 | always performs a full load (at least one fetch even with a warm cache) and reports it through `Report` |
| `Countries.CountriesService.OnModuleInit` | src/countries/countries.service.ts:23-28 | performs one full load with retry and has no failure outcome; slot and fetch count are those of the load |
| `CountriesProperties.LookupIgnoresCase` | src/countries/countries.service.ts:88-98 | two spellings with the same lower-case form find the same record, or both fail |
| `CountriesProperties.LookupOfLowercasedName` | src/countries/countries.service.ts:90-91 | searching with the lower-cased name finds the same record as with the original spelling |
| `CountriesProperties.SouthAfricaIgnoresCase` | test/modules/countries/countries.service.spec.ts:139-143 | "south africa" and "South Africa" find the same record |
| `CountriesProperties.ListedInNameOrder` | src/countries/countries.service.ts:82-85 | from a slot satisfying the invariant, the list's names are in comparator order |
| `CountriesProperties.EmptyUpstreamAsymmetry` | src/countries/countries.service.ts:43-47 | an empty upstream list deletes the entry. A refresh then reports count 0, while a list request from a cold cache fails with "No country data available." |
| `CountriesProperties.FailedRefreshKeepsSnapshot` | src/countries/countries.service.ts:55-63 | two failed attempts make a refresh fail after exactly two fetches, with the slot unchanged. A following list request serves the old snapshot with no fetch. With no snapshot it fails the same way when the upstream keeps failing |
| `CountriesProperties.ZetaAlphaExample` | src/countries/countries.service.ts:30-54 | from a cold cache with the upstream answering Zeta then Alpha, the list is Alpha (a.png) then Zeta (z.svg), and "ALPHA" finds Alpha with capital "N/A" |
| `CountriesProperties.FlaglessRecordThrows` | src/countries/countries.service.ts:49 | a record with no flag URL makes the mapping as written throw, while the intended transform gives it the placeholder flag and the load caches it |
| `CountriesProperties.FlaglessTwiceFails` | src/countries/countries.service.ts:41-63 | with one flagless record answered on both attempts, the load as written fails after two fetches with the slot unchanged, so a refresh, and a list request whenever it has to load, raise the internal server error; the intended load caches the record with the placeholder flag after one fetch |

## Findings

| source | as written | input that shows it | evidently intended | confidence | as-written member | corrected member |
|---|---|---|---|---|---|---|
| src/countries/countries.service.ts:49 | `rawCountries.map(this.transformToCountryDetailsDto)` passes the method without binding `this`. In strict class code `this` is then `undefined`, and `this.noFlagUrl` on line 33 throws a TypeError. That line is reached only when neither flag URL is truthy | a fetched record whose `flags` has no non-empty `svg` and no non-empty `png`. The TypeError is caught as if the fetch had failed, so the load retries and then raises an internal server error | such a record gets the configured placeholder flag and the load succeeds | high, not executed | `Countries.TransformUnbound`, `Countries.TransformAllUnbound`, `Countries.LoadAndCacheRunAsWritten`, `CountriesProperties.FlaglessRecordThrows`, `CountriesProperties.FlaglessTwiceFails` | `Countries.TransformToCountryDetails` (used by `Countries.StoreFetched` and the class) |

## Left out

- HTTP transport of the fetcher (axios/rxjs, URL, timeout, error wrapping). Only its outcome is modelled: a body, possibly empty, or a failure. A `null` or `undefined` body makes `fetchAllCountries` throw (src/external-api/external-api.service.ts:41, rethrown at line 46), so it arrives as a failure; the outcome `Fetched(None)` is kept only to model the service's own `!rawCountries` guard (src/countries/countries.service.ts:43), which the fetcher as written never triggers.
- The 5-second delay before the retry. It is timing only; the retry is modelled as the second attempt.
- Logger calls. They are diagnostics only.
- Cache store internals: TTL expiry and the maximum-entries eviction belong to the external cache library. The store is one slot that only this service writes. A failing `set` or `del` is not modelled.
- Concurrent callers racing on the slot, and the independent retry budgets of concurrent loads. The model is sequential.
- Unicode semantics of `localeCompare` and `toLowerCase`. The comparator is any consistent comparator (a total preorder). Lower-casing covers ASCII letters only.
- NameSort.SortByName: stability (equal names keep their input order) holds by construction but is not stated as a contract; sortedness and permutation are.
- The controller, bootstrap, CORS, Swagger, DI modules and validation decorators are glue. The DTOs are kept only as record types.
- The in-memory store is assumed empty at construction: the slot starts absent.
