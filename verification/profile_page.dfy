/**
 * The profile page (`ProfilePage`): it loads the signed-in developer's
 * profile, lets the developer refresh the location (GPS, then IP, then a
 * fixed default, each tagged with its source) and edit the technologies, and
 * sends the update after a fixed sequence of checks.
 */
module ProfilePage {
  import opened Js
  import opened Text
  import opened Geo
  import opened Techs
  import opened Api
  import opened Auth

  /** `LocationData.source` */
  datatype LocationSource = Gps | Ip | Database | FallbackSource

  /** `LocationData`: a coordinate, where it came from, and the place names of an IP lookup. */
  datatype LocationData = LocationData(
    latitude: real,
    longitude: real,
    source: LocationSource,
    city: Option<string>,
    region: Option<string>,
    country: Option<string>)

  /** `defaultLocation` */
  const DefaultProfileLocation: LocationData :=
    LocationData(DefaultLocation.latitude, DefaultLocation.longitude, FallbackSource, None, None, None)

  const IpFailureMessage := "Falha ao obter localização via IP"
  const UpdateFailedFallbackMessage := "Houve um erro ao atualizar seu perfil. Tente novamente."

  // ---------------------------------------------------------------------
  // IP lookup
  // ---------------------------------------------------------------------

  /**
   * What `fetch("http://ip-api.com/json/?fields=...")` gives: a thrown
   * request, or a response with its `ok` flag, status and decoded body
   * (`None` when decoding throws).
   */
  datatype IpAnswer =
    | RequestThrew
    | IpResponse(ok: bool, status: int, body: Option<IpApiData>)

  /** The error `getLocationFromIP` rethrows. */
  datatype IpError =
    | NetworkError
    | HttpError(status: int)
    | InvalidBody
    | ServiceFailure(message: string)

  /**
   * `getLocationFromIP`: a response that is not ok throws with its status; a
   * "success" body gives an "ip" location with city, region (`regionName`)
   * and country; any other status throws with the service's message or a
   * fixed text.
   */
  function GetLocationFromIP(answer: IpAnswer): (r: Result<LocationData, IpError>)
    ensures r.Ok? <==> answer.IpResponse? && answer.ok && answer.body.Some? && IpApiSucceeded(answer.body.value)
    ensures r.Ok? ==>
      var data := answer.body.value;
      r.value == LocationData(data.lat, data.lon, Ip, Some(data.city), Some(data.regionName), Some(data.country))
    ensures answer.IpResponse? && !answer.ok ==> r == Err(HttpError(answer.status))
    ensures answer.IpResponse? && answer.ok && answer.body.Some? && !IpApiSucceeded(answer.body.value) ==>
      r == Err(ServiceFailure(Or(answer.body.value.message, IpFailureMessage)))
  {
    match answer
    case RequestThrew => Err(NetworkError)
    case IpResponse(ok, status, body) =>
      if !ok then Err(HttpError(status))
      else if body.None? then Err(InvalidBody)
      else if IpApiSucceeded(body.value) then
        var data := body.value;
        Ok(LocationData(data.lat, data.lon, Ip, Some(data.city), Some(data.regionName), Some(data.country)))
      else Err(ServiceFailure(Or(body.value.message, IpFailureMessage)))
  }

  /** A service failure always carries a non-empty message: the fixed text stands in when the service gave none. */
  lemma ServiceFailureMessageNonEmpty(answer: IpAnswer)
    requires GetLocationFromIP(answer).Err? && GetLocationFromIP(answer).error.ServiceFailure?
    ensures GetLocationFromIP(answer).error.message != ""
  {
  }

  /** The IP lookup, or the default location when it throws. */
  function IpOrDefault(answer: IpAnswer): (r: LocationData)
    ensures r.source == Ip || r == DefaultProfileLocation
    ensures r.source == Ip <==> GetLocationFromIP(answer).Ok?
    ensures GetLocationFromIP(answer).Ok? ==> r == GetLocationFromIP(answer).value
  {
    match GetLocationFromIP(answer)
    case Ok(data) => data
    case Err(_) => DefaultProfileLocation
  }

  /**
   * The location `handleGetLocation` stores: with geolocation, a GPS fix
   * (source "gps"), otherwise the IP lookup; without geolocation, the IP
   * lookup directly; the default when the lookup fails.
   */
  function ProfileLocation(geolocationSupported: bool, gps: GpsOutcome, ip: IpAnswer): (r: LocationData)
    ensures r.source == Gps <==> geolocationSupported && gps.Fix?
    ensures r.source == Gps ==> r == LocationData(gps.coord.latitude, gps.coord.longitude, Gps, None, None, None)
    ensures r.source == Ip <==> !(geolocationSupported && gps.Fix?) && GetLocationFromIP(ip).Ok?
    ensures r.source == Ip ==> r == GetLocationFromIP(ip).value
    ensures r.source != Gps && r.source != Ip ==> r == DefaultProfileLocation
    ensures r.source != Database
  {
    if geolocationSupported && gps.Fix? then
      LocationData(gps.coord.latitude, gps.coord.longitude, Gps, None, None, None)
    else
      IpOrDefault(ip)
  }

  /** Without geolocation the GPS outcome plays no part. */
  lemma UnsupportedNeverUsesGps(gps: GpsOutcome, other: GpsOutcome, ip: IpAnswer)
    ensures ProfileLocation(false, gps, ip) == ProfileLocation(false, other, ip)
    ensures ProfileLocation(false, gps, ip).source != Gps
  {
  }

  /** Unlike the search page, a missing geolocation still tries the IP lookup. */
  lemma UnsupportedTriesIp(gps: GpsOutcome, ip: IpAnswer)
    requires GetLocationFromIP(ip).Ok?
    ensures ProfileLocation(false, gps, ip) == GetLocationFromIP(ip).value
  {
  }

  // ---------------------------------------------------------------------
  // Display text
  // ---------------------------------------------------------------------

  /** A template-literal interpolation of an optional string (`undefined` is printed as such). */
  function Interpolate(s: Option<string>): string {
    if s.Some? then s.value else "undefined"
  }

  const GpsLabel := "Detectada via GPS"
  const IpLabelPrefix := "Via IP: "
  const DatabaseLabel := "Localização salva no perfil"
  const FallbackLabel := "Localização padrão (São Paulo, Brasil)"

  /** `getLocationDisplayText` */
  function LocationDisplayText(location: LocationData): (text: string)
    ensures location.source == Gps ==> text == GpsLabel
    ensures location.source == Database ==> text == DatabaseLabel
    ensures location.source == FallbackSource ==> text == FallbackLabel
    ensures location.source == Ip ==> StartsWith(text, IpLabelPrefix)
  {
    match location.source
    case Gps => GpsLabel
    case Ip =>
      IpLabelPrefix + Interpolate(location.city) + ", " + Interpolate(location.region) + ", " + Interpolate(location.country)
    case Database => DatabaseLabel
    case FallbackSource => FallbackLabel
  }

  /** The label tells the source apart: equal labels mean equal sources. */
  lemma DisplayTextDeterminesSource(a: LocationData, b: LocationData)
    requires LocationDisplayText(a) == LocationDisplayText(b)
    ensures a.source == b.source
  {
    var ta, tb := LocationDisplayText(a), LocationDisplayText(b);
    assert GpsLabel[0] == 'D' && DatabaseLabel[0] == 'L' && FallbackLabel[0] == 'L' && IpLabelPrefix[0] == 'V';
    assert DatabaseLabel[12] == 's' && FallbackLabel[12] == 'p';
    if a.source == Ip {
      assert ta[0] == 'V';
    }
    if b.source == Ip {
      assert tb[0] == 'V';
    }
  }

  // ---------------------------------------------------------------------
  // Update validation
  // ---------------------------------------------------------------------

  /** Why `handleUpdateProfile` stops before sending anything. */
  datatype Rejection = MissingId | BlankTechs | MissingLocation | NoValidTechs

  /** An update ready to send: the developer id and the payload. */
  datatype Update = Update(id: string, request: DeveloperRequest)

  /**
   * The checks of `handleUpdateProfile`, in order: a developer id, a
   * non-blank techs text, a location, at least one technology after
   * `processTechs`. The first that fails decides; otherwise the payload is
   * the stored GitHub username, the processed technologies and the current
   * coordinates.
   */
  function ValidateUpdate(developer: Option<Developer>, techs: string, location: Option<LocationData>)
    : (r: Result<Update, Rejection>)
    ensures r == Err(MissingId) <==> developer.None? || !Truthy(developer.value.id)
    ensures r == Err(BlankTechs) <==> developer.Some? && Truthy(developer.value.id) && AllWhitespace(techs)
    ensures r == Err(MissingLocation) <==>
      developer.Some? && Truthy(developer.value.id) && !AllWhitespace(techs) && location.None?
    ensures r == Err(NoValidTechs) <==>
      developer.Some? && Truthy(developer.value.id) && !AllWhitespace(techs) && location.Some?
      && ProcessTechs(techs) == []
    ensures r.Ok? ==>
      r.value.id == developer.value.id.value
      && r.value.request == DeveloperRequest(developer.value.githubUsername, ProcessTechs(techs),
                                              location.value.latitude, location.value.longitude)
      && |r.value.request.techs| > 0
  {
    TrimEmptyIff(techs);
    if developer.None? || !Truthy(developer.value.id) then Err(MissingId)
    else if Trim(techs) == "" then Err(BlankTechs)
    else if location.None? then Err(MissingLocation)
    else if ProcessTechs(techs) == [] then Err(NoValidTechs)
    else
      Ok(Update(developer.value.id.value,
                DeveloperRequest(developer.value.githubUsername, ProcessTechs(techs),
                                 location.value.latitude, location.value.longitude)))
  }

  /** The technologies a loaded profile puts in the form. */
  function LoadedTechs(dev: Developer): string {
    Join(dev.techs, ", ")
  }

  /** A join of well-formed technologies starts with the first one's first character. */
  lemma JoinHead(ts: seq<string>)
    requires |ts| > 0 && ts[0] != ""
    ensures Join(ts, ", ") != [] && Join(ts, ", ")[0] == ts[0][0]
  {
  }

  /**
   * Round trip: saving a freshly loaded profile sends back the technologies
   * it was loaded with, provided each is non-empty, trimmed and comma-free
   * and there is at least one.
   */
  lemma LoadThenUpdateKeepsTechs(dev: Developer, location: LocationData)
    requires Truthy(dev.id) && |dev.techs| > 0
    requires WellFormedTechs(dev.techs)
    ensures var r := ValidateUpdate(Some(dev), LoadedTechs(dev), Some(location));
      r.Ok? && r.value.request.techs == dev.techs && r.value.request.githubUsername == dev.githubUsername
  {
    var text := LoadedTechs(dev);
    assert WellFormedTech(dev.techs[0]);
    ProcessTechsJoin(dev.techs);
    JoinHead(dev.techs);
    assert !AllWhitespace(text) by {
      assert !IsWhitespace(text[0]);
    }
  }

  /** The outcome of `handleUpdateProfile`, as the page reports it. */
  datatype UpdateOutcome =
    | Rejected(reason: Rejection)
    | Updated(developer: Developer)
    | UpdateFailed(message: string)

  /** The message of the toast for a failed update. */
  function UpdateFailureMessage(e: ApiError): (m: string)
    ensures e.message != "" ==> m == e.message
    ensures m != ""
  {
    if e.message != "" then e.message else UpdateFailedFallbackMessage
  }

  /** The state hooks of the page, and the navigations it scheduled. */
  class Page {
    var loading: bool
    var loadingProfile: bool
    var techs: string
    var location: Option<LocationData>
    var locationLoading: bool
    var developer: Option<Developer>
    /** Paths passed to `router.push`, oldest first (delayed ones included). */
    var navigations: seq<string>
    /** Every update sent, oldest first. */
    var sentUpdates: seq<Update>

    constructor()
      ensures !loading && loadingProfile && techs == "" && location.None? && !locationLoading
      ensures developer.None? && navigations == [] && sentUpdates == []
    {
      loading := false;
      loadingProfile := true;
      techs := "";
      location := None;
      locationLoading := false;
      developer := None;
      navigations := [];
      sentUpdates := [];
    }

    /** The session effect: an unauthenticated visitor is sent to the login page. */
    method SessionStatusEffect(status: Status)
      modifies this
      ensures navigations == old(navigations) + (if status == Unauthenticated then ["/login"] else [])
      ensures techs == old(techs) && location == old(location) && developer == old(developer)
      ensures sentUpdates == old(sentUpdates) && loading == old(loading) && loadingProfile == old(loadingProfile)
      ensures locationLoading == old(locationLoading)
    {
      if status == Unauthenticated {
        navigations := navigations + ["/login"];
      }
    }

    /**
     * `loadDeveloperProfile`: nothing without a username. A found profile
     * fills the form: its technologies joined with ", " and its stored
     * coordinates, tagged "database". A 404 schedules the register page; any
     * other error leaves the form as it was.
     */
    method LoadDeveloperProfile(session: Option<Session>, backend: string -> Result<Developer, Failure>)
      modifies this
      ensures !Truthy(Username(session)) ==> unchanged(this)
      ensures Truthy(Username(session)) ==>
        var reply := backend(Username(session).value);
        !loadingProfile
        && sentUpdates == old(sentUpdates) && loading == old(loading) && locationLoading == old(locationLoading)
        && (reply.Ok? ==>
              developer == Some(reply.value) && techs == LoadedTechs(reply.value)
              && location == Some(LocationData(reply.value.latitude, reply.value.longitude, Database, None, None, None))
              && navigations == old(navigations))
        && (reply.Err? ==>
              developer == old(developer) && techs == old(techs) && location == old(location)
              && navigations == old(navigations) + (if StatusOf(reply.error) == 404 then ["/register"] else []))
    {
      var username := Username(session);
      if !Truthy(username) {
        return;
      }
      loadingProfile := true;
      var r := GetDeveloperByUsername(username.value, backend);
      match r {
        case Ok(dev) =>
          developer := Some(dev);
          techs := Join(dev.techs, ", ");
          location := Some(LocationData(dev.latitude, dev.longitude, Database, None, None, None));
        case Err(e) =>
          if e.status == 404 {
            navigations := navigations + ["/register"];
          }
      }
      loadingProfile := false;
    }

    /**
     * `handleGetLocation`: stores `ProfileLocation` and clears the loading
     * flag; nothing else changes.
     */
    method HandleGetLocation(geolocationSupported: bool, gps: GpsOutcome, ip: IpAnswer)
      modifies this
      ensures location == Some(ProfileLocation(geolocationSupported, gps, ip)) && !locationLoading
      ensures techs == old(techs) && developer == old(developer) && navigations == old(navigations)
      ensures sentUpdates == old(sentUpdates) && loading == old(loading) && loadingProfile == old(loadingProfile)
    {
      locationLoading := true;
      if geolocationSupported {
        match gps {
          case Fix(c) =>
            location := Some(LocationData(c.latitude, c.longitude, Gps, None, None, None));
            locationLoading := false;
            return;
          case PositionError(_) =>
            var ipLocation := GetLocationFromIP(ip);
            if ipLocation.Ok? {
              location := Some(ipLocation.value);
            } else {
              location := Some(DefaultProfileLocation);
            }
        }
      } else {
        var ipLocation := GetLocationFromIP(ip);
        if ipLocation.Ok? {
          location := Some(ipLocation.value);
        } else {
          location := Some(DefaultProfileLocation);
        }
      }
      locationLoading := false;
    }

    /**
     * `handleUpdateProfile`: the checks run in order and the first failure
     * stops everything; otherwise exactly one update is sent and, on success,
     * the returned developer replaces the stored one.
     */
    method HandleUpdateProfile(backend: (string, DeveloperRequest) -> Result<Developer, Failure>)
      returns (outcome: UpdateOutcome)
      modifies this
      ensures var v := ValidateUpdate(old(developer), old(techs), old(location));
        (v.Err? <==> outcome.Rejected?)
        && (v.Err? ==> outcome.reason == v.error && unchanged(this))
        && (v.Ok? ==>
              sentUpdates == old(sentUpdates) + [v.value] && !loading
              && techs == old(techs) && location == old(location) && navigations == old(navigations)
              && loadingProfile == old(loadingProfile) && locationLoading == old(locationLoading)
              && (backend(v.value.id, v.value.request).Ok? ==>
                    outcome == Updated(backend(v.value.id, v.value.request).value)
                    && developer == Some(outcome.developer))
              && (backend(v.value.id, v.value.request).Err? ==>
                    outcome == UpdateFailed(UpdateFailureMessage(UpdateError(backend(v.value.id, v.value.request).error)))
                    && outcome.message != "" && developer == old(developer)))
    {
      TrimEmptyIff(techs);
      if developer.None? || !Truthy(developer.value.id) {
        return Rejected(MissingId);
      }
      if Trim(techs) == "" {
        return Rejected(BlankTechs);
      }
      if location.None? {
        return Rejected(MissingLocation);
      }
      var techsArray := ProcessTechs(techs);
      if |techsArray| == 0 {
        return Rejected(NoValidTechs);
      }
      var update := Update(developer.value.id.value,
                           DeveloperRequest(developer.value.githubUsername, techsArray,
                                            location.value.latitude, location.value.longitude));
      assert ValidateUpdate(developer, techs, location) == Ok(update);
      outcome := SendUpdate(update, backend);
    }

    /** The part of `handleUpdateProfile` after the checks: send the update and react to the reply. */
    method SendUpdate(update: Update, backend: (string, DeveloperRequest) -> Result<Developer, Failure>)
      returns (outcome: UpdateOutcome)
      modifies this
      ensures sentUpdates == old(sentUpdates) + [update] && !loading && !outcome.Rejected?
      ensures techs == old(techs) && location == old(location) && navigations == old(navigations)
      ensures loadingProfile == old(loadingProfile) && locationLoading == old(locationLoading)
      ensures backend(update.id, update.request).Ok? ==>
        outcome == Updated(backend(update.id, update.request).value) && developer == Some(outcome.developer)
      ensures backend(update.id, update.request).Err? ==>
        outcome == UpdateFailed(UpdateFailureMessage(UpdateError(backend(update.id, update.request).error)))
        && outcome.message != "" && developer == old(developer)
    {
      loading := true;
      sentUpdates := sentUpdates + [update];
      var r := UpdateDeveloperById(update.id, update.request, backend);
      if r.Ok? {
        developer := Some(r.value);
        outcome := Updated(r.value);
      } else {
        outcome := UpdateFailed(UpdateFailureMessage(r.error));
      }
      loading := false;
    }
  }
}
