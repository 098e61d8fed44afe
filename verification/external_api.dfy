/**
 * The upstream country provider as the cache service sees it: the shape of
 * one raw record, and a fetcher whose n-th call has a fixed outcome. How the
 * outcome is obtained (an HTTP GET, its timeout, JSON decoding) is not part
 * of this model.
 */
module ExternalApi {
  import opened Wrappers

  datatype RestCountryFlag = RestCountryFlag(png: Option<string>, svg: Option<string>, alt: Option<string>)

  datatype RestCountryName = RestCountryName(common: string, official: string)

  /** `capital` and the two flag URLs are optional in the upstream JSON. */
  datatype RestCountry = RestCountry(
    name: RestCountryName,
    population: int,
    capital: Option<seq<string>>,
    flags: RestCountryFlag)

  /**
   * What one call to the fetcher yields: a resolved response body or a
   * rejected promise with its message. `Fetched(None)` (a `null` or
   * `undefined` body) exists only for the cache service's own `!rawCountries`
   * guard: `fetchAllCountries` as written reads `response.data.length` inside
   * its `try`, so such a body is rethrown and arrives as `Failed`.
   */
  datatype FetchOutcome = Fetched(data: Option<seq<RestCountry>>) | Failed(message: string)

  /** The fetcher as an oracle: call number `n` (from 0) answers `answers(n)`. */
  class ExternalApiService {
    const answers: nat -> FetchOutcome
    var calls: nat

    constructor (answers: nat -> FetchOutcome)
      ensures this.answers == answers && calls == 0
    {
      this.answers := answers;
      calls := 0;
    }

    /** One attempt, no retry at this layer. */
    method FetchAllCountries() returns (r: FetchOutcome)
      modifies this
      ensures r == answers(old(calls))
      ensures calls == old(calls) + 1
    {
      r := answers(calls);
      calls := calls + 1;
    }
  }
}
