/**
 * The IP geolocation route of the Next.js app (`/api/location`): it takes the
 * client address from `x-forwarded-for` and asks ip-api.com where it is.
 */
module LocationRoute {
  import opened Js
  import opened Text
  import opened Geo

  /** The address used when no `x-forwarded-for` header is present. */
  const LocalAddress := "127.0.0.1"

  /**
   * The client address: the text before the first comma of
   * `x-forwarded-for`, untrimmed; the loopback address when the header is
   * missing or empty.
   */
  function ClientIp(forwarded: Option<string>): (ip: string)
    ensures !Truthy(forwarded) ==> ip == LocalAddress
    ensures Truthy(forwarded) ==>
      StartsWith(forwarded.value, ip) && ',' !in ip
      && (|ip| < |forwarded.value| ==> forwarded.value[|ip|] == ',')
  {
    if Truthy(forwarded) then
      SplitFirstPiece(forwarded.value, ',');
      Split(forwarded.value, ',')[0]
    else
      LocalAddress
  }

  /** A header without a comma is the address itself, blanks included. */
  lemma ClientIpSingleAddress(forwarded: string)
    requires forwarded != "" && ',' !in forwarded
    ensures ClientIp(Some(forwarded)) == forwarded
  {
    SplitNoSeparator(forwarded, ',');
  }

  /** The response of `GET /api/location`. */
  datatype LocationResponse =
    | Located(latitude: real, longitude: real, city: string, country: string)
    | NotFound404
    | Failed500

  /**
   * `GET /api/location`. `lookup` is the ip-api.com request for an address:
   * `None` when the request or its JSON decoding throws. A "success" status
   * gives the coordinates, city and country; any other status gives 404; a
   * thrown error gives 500.
   */
  function Get(forwarded: Option<string>, lookup: string -> Option<IpApiData>): (r: LocationResponse)
    ensures lookup(ClientIp(forwarded)).None? <==> r.Failed500?
    ensures r.NotFound404? <==> lookup(ClientIp(forwarded)).Some? && !IpApiSucceeded(lookup(ClientIp(forwarded)).value)
    ensures r.Located? ==>
      var data := lookup(ClientIp(forwarded)).value;
      IpApiSucceeded(data) && r == Located(data.lat, data.lon, data.city, data.country)
  {
    match lookup(ClientIp(forwarded))
    case None => Failed500
    case Some(data) =>
      if IpApiSucceeded(data) then Located(data.lat, data.lon, data.city, data.country) else NotFound404
  }
}
