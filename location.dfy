/** Location resolution, the first half of `getWeather`: parameters override
    the form fields by JS truthiness, the city is geocoded only when a
    coordinate is missing, and the first geocoding result replaces both
    coordinates. */
module Location {
  import opened Values

  /** One candidate of the geocoding response. */
  datatype Place = Place(latitude: Coord, longitude: Coord)

  /** What the geocoding request delivered: a thrown failure (network error or
      unparsable body), or a body whose `results` member may be missing. */
  datatype GeoResponse = GeoThrew | GeoBody(results: Option<seq<Place>>)

  /** How resolution ends. `GeocodeFailed` is a thrown failure, caught by the
      caller's `catch`. */
  datatype Resolution =
    | Resolved(latitude: Coord, longitude: Coord)
    | CityNotFound
    | MissingCoordinates
    | GeocodeFailed

  /** `city && (!lat || !lon)`: the only condition under which the geocoding
      service is consulted. */
  predicate NeedsGeocode(city: string, lat: Coord, lon: Coord)
  {
    city != "" && (!Truthy(lat) || !Truthy(lon))
  }

  /** `!geoData.results || geoData.results.length === 0`. */
  predicate NoResults(results: Option<seq<Place>>)
  {
    results.None? || |results.value| == 0
  }

  /** The coordinates `getWeather` works with before any geocoding:
      `latParam || latitude` and `lonParam || longitude`. */
  function Preferred(latParam: Coord, lonParam: Coord, latField: Coord, lonField: Coord): (p: (Coord, Coord))
    ensures Truthy(latParam) ==> p.0 == latParam
    ensures Truthy(lonParam) ==> p.1 == lonParam
    ensures !Truthy(latParam) ==> p.0 == latField
    ensures !Truthy(lonParam) ==> p.1 == lonField
  {
    (Or(latParam, latField), Or(lonParam, lonField))
  }

  /** Resolution proper, from the preferred coordinates and the geocoding
      response (which is consulted only under NeedsGeocode). */
  function Resolve(city: string, lat: Coord, lon: Coord, geo: GeoResponse): (r: Resolution)
    // A resolved location always has two truthy coordinates.
    ensures r.Resolved? ==> Truthy(r.latitude) && Truthy(r.longitude)
    // Present coordinates are used unchanged, whatever the geocoder would say.
    ensures Truthy(lat) && Truthy(lon) ==> r == Resolved(lat, lon)
    // The geocoder's answer matters only when it is consulted.
    ensures !NeedsGeocode(city, lat, lon) ==> r == if Truthy(lat) && Truthy(lon) then Resolved(lat, lon) else MissingCoordinates
    // "City not found!" exactly when the consulted geocoder has no result.
    ensures r == CityNotFound <==> NeedsGeocode(city, lat, lon) && geo.GeoBody? && NoResults(geo.results)
    // A thrown failure only from a consulted geocoder.
    ensures r == GeocodeFailed <==> NeedsGeocode(city, lat, lon) && geo.GeoThrew?
    // After geocoding, both coordinates come from the first result.
    ensures NeedsGeocode(city, lat, lon) && r.Resolved? ==>
      geo.GeoBody? && !NoResults(geo.results) &&
      r == Resolved(geo.results.value[0].latitude, geo.results.value[0].longitude)
    // A consulted geocoder with a result hands its first result to the
    // coordinate check: accepted iff both of its coordinates are truthy.
    ensures NeedsGeocode(city, lat, lon) && geo.GeoBody? && !NoResults(geo.results) ==>
      r == Check(geo.results.value[0].latitude, geo.results.value[0].longitude) &&
      (r.Resolved? <==> Truthy(geo.results.value[0].latitude) && Truthy(geo.results.value[0].longitude))
  {
    if NeedsGeocode(city, lat, lon) then
      match geo
      case GeoThrew => GeocodeFailed
      case GeoBody(results) =>
        if NoResults(results) then CityNotFound
        else
          var first := results.value[0];
          Check(first.latitude, first.longitude)
    else
      Check(lat, lon)
  }

  /** `if (!lat || !lon)`: the second exit. */
  function Check(lat: Coord, lon: Coord): (r: Resolution)
    ensures r.Resolved? <==> Truthy(lat) && Truthy(lon)
    ensures r.Resolved? ==> r == Resolved(lat, lon)
    ensures !r.Resolved? ==> r == MissingCoordinates
  {
    if !Truthy(lat) || !Truthy(lon) then MissingCoordinates else Resolved(lat, lon)
  }

  /** With no city, resolution never consults the geocoder: present
      coordinates pass through, otherwise the input is missing. */
  lemma NoCityNoGeocode(lat: Coord, lon: Coord, g1: GeoResponse, g2: GeoResponse)
    ensures Resolve("", lat, lon, g1) == Resolve("", lat, lon, g2)
    ensures Resolve("", lat, lon, g1) == MissingCoordinates <==> !Truthy(lat) || !Truthy(lon)
  {
  }

  /** A numeric 0 counts as missing: a zero coordinate with a city sends the
      city to the geocoder, and without a city it ends as missing input. */
  lemma ZeroIsMissing(city: string, lon: Coord, geo: GeoResponse)
    ensures NeedsGeocode(city, Num(0.0), lon) <==> city != ""
    ensures city == "" ==> Resolve(city, Num(0.0), lon, geo) == MissingCoordinates
  {
  }
}
