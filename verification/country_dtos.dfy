/** The records the service hands out. */
module CountryDtos {

  /** What the list operation returns for each country. */
  datatype Country = Country(name: string, flag: string)

  /** The normalised record kept in the cache and returned by the lookup. */
  datatype CountryDetails = CountryDetails(name: string, flag: string, population: int, capital: string)
}
