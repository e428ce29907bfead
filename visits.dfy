/**
 * The visit entities the locator works on: the visitor who followed a short
 * URL, the geographic location an address resolves to, and the visit itself,
 * whose location is attached after the visit has been recorded.
 */
module Visits {
  import opened Wrappers

  /** A resolved geographic location. Coordinates are kept as exact reals. */
  datatype Location = Location(
    countryCode: string,
    countryName: string,
    regionName: string,
    city: string,
    latitude: real,
    longitude: real,
    timezone: string)

  /** The location given to visits whose address cannot be geolocated: blank names, zero coordinates. */
  const EmptyLocation: Location := Location("", "", "", "", 0.0, 0.0, "")

  /** The loopback address the library compares remote addresses against. */
  const Localhost: string := "127.0.0.1"

  /** Referer, user agent and remote address of a visit; the address may be missing. */
  datatype Visitor = Visitor(referer: string, userAgent: string, remoteAddress: Option<string>)

  /** The short URL a visit belongs to, reduced to its long URL. */
  datatype ShortUrl = ShortUrl(longUrl: string)

  /**
   * What gets attached to a visit: a resolved location, or the marker for a
   * visit that could not be located because no geolocation database was usable.
   */
  datatype VisitLocation = VisitLocation(location: Location) | UnknownVisitLocation

  /** An address worth resolving: present, not empty and not the loopback address. */
  predicate IsLocatable(v: Visitor) {
    v.remoteAddress.Some? && v.remoteAddress.value != "" && v.remoteAddress.value != Localhost
  }

  /** The address a locatable visitor is resolved with. */
  function RemoteAddress(v: Visitor): string
    requires IsLocatable(v)
  {
    v.remoteAddress.value
  }

  /** A recorded visit. Its location is unset until the locator attaches one. */
  class Visit {
    const shortUrl: ShortUrl
    const visitor: Visitor
    var visitLocation: Option<VisitLocation>

    constructor (shortUrl: ShortUrl, visitor: Visitor)
      ensures this.shortUrl == shortUrl && this.visitor == visitor
      ensures visitLocation == None
    {
      this.shortUrl := shortUrl;
      this.visitor := visitor;
      visitLocation := None;
    }

    /** Attaches a location to the visit. */
    method Locate(location: VisitLocation)
      modifies this
      ensures visitLocation == Some(location)
    {
      visitLocation := Some(location);
    }
  }
}
