/**
 * Coordinates, distances and device geolocation outcomes shared by the
 * search engine and the three location-acquisition chains.
 */
module Geo {
  import opened Js

  /** A point in decimal degrees. */
  datatype Coord = Coord(latitude: real, longitude: real)

  /** A distance in kilometres; never negative. */
  type Km = r: real | 0.0 <= r

  /**
   * `calculateDistance(lat1, lon1, lat2, lon2)`: the haversine great-circle
   * distance in kilometres. Its floating-point trigonometry is not modelled;
   * every operation that needs it takes it as a parameter.
   */
  type DistanceFn = (real, real, real, real) -> Km

  /** The fixed fallback coordinate (São Paulo) used by every chain. */
  const DefaultLocation: Coord := Coord(-23.5505, -46.6333)

  /** `GeolocationPositionError` codes. */
  const PERMISSION_DENIED: int := 1
  const POSITION_UNAVAILABLE: int := 2
  const TIMEOUT: int := 3

  /**
   * The JSON that ip-api.com answers with: `status` is "success" or "fail",
   * and `message` explains a failure.
   */
  datatype IpApiData = IpApiData(
    status: string,
    lat: real,
    lon: real,
    city: string,
    regionName: string,
    country: string,
    message: Option<string>)

  /** `data.status === "success"` */
  predicate IpApiSucceeded(data: IpApiData) {
    data.status == "success"
  }

  /** What one `navigator.geolocation.getCurrentPosition` call reports. */
  datatype GpsOutcome = Fix(coord: Coord) | PositionError(code: int)
}
