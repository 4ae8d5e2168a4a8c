/** The records of a GeoIP2 database and the two lookups the filter uses.
    The database format itself is outside the model: a reader is just the
    pair of lookup functions, each of which may miss. */
module GeoDb {
  import opened Wrappers
  import opened Values

  /** An IP address in the byte form that the address parser produces. */
  type IP = seq<bv8>

  /** Something with a name in several languages, keyed by language code. */
  datatype Named = Named(names: map<string, string>)

  datatype Location = Location(latitude: Float64, longitude: Float64, timeZone: string)

  /** The full geographic record of the city tier. */
  datatype CityRecord = CityRecord(
    city: Named,
    country: Named,
    location: Location,
    subdivisions: seq<Named>)

  /** The network record of the ISP tier. */
  datatype IspRecord = IspRecord(isp: string)

  /** An opened database: the city lookup and the ISP lookup. */
  datatype Reader = Reader(city: IP -> Option<CityRecord>, isp: IP -> Option<IspRecord>)

  /** Reading a Go map of names: a missing language yields the zero value,
      the empty string. */
  function NameIn(place: Named, language: string): string {
    if language in place.names then place.names[language] else ""
  }
}
