/**
 * The search page (`SearchPage`): it finds the user's position through a
 * chain of fallbacks (precise GPS, coarse GPS, IP geolocation through the
 * app's own route and then ip-api.com directly, a fixed default), searches
 * the back end around it, annotates and sorts the developers by distance,
 * and filters them locally by technology.
 *
 * The page's state hooks are the fields of `Page`. The outcomes of the
 * device and network calls of one run are gathered in a `LocationEnvironment`
 * and in the `backend` function, so a run is a sequence of state updates.
 */
module SearchPage {
  import opened Js
  import opened Text
  import opened Seqs
  import opened Geo
  import opened Techs
  import opened Api
  import opened LocationRoute

  /** `apiStatus` */
  datatype ApiStatus = Checking | Online | Offline

  const GenericSearchMessage := "Erro ao buscar desenvolvedores. Tente novamente."
  const UnsupportedMessage := "Geolocalização não é suportada pelo seu navegador."
  const NoPreciseLocationMessage := "Não foi possível obter sua localização precisa."
  const PermissionDeniedMessage := "Acesso à localização foi negado."

  /** The initial value of the distance select, in kilometres, as text. */
  const InitialDistance := "10"

  // ---------------------------------------------------------------------
  // Technology filter
  // ---------------------------------------------------------------------

  /** `dev.techs.some((tech) => tech.toLowerCase().includes(debouncedTech.toLowerCase()))` */
  function TechFilter(tech: string): DeveloperWithDistance -> bool {
    (d: DeveloperWithDistance) => AnyTagMatches(d.dev.techs, tech)
  }

  /**
   * The technology-filter effect: an empty text keeps every developer;
   * otherwise only those with a tag containing the text, ignoring case.
   */
  function FilterByTech(all: seq<DeveloperWithDistance>, tech: string): (r: seq<DeveloperWithDistance>)
    ensures |r| <= |all|
    ensures tech == "" ==> r == all
    ensures forall i :: 0 <= i < |r| ==> r[i] in all && (tech == "" || AnyTagMatches(r[i].dev.techs, tech))
  {
    if tech == "" then all else Filter(all, TechFilter(tech))
  }

  /** Completeness: a developer with a matching tag is never filtered out. */
  lemma FilterByTechComplete(all: seq<DeveloperWithDistance>, tech: string, d: DeveloperWithDistance)
    requires d in all && AnyTagMatches(d.dev.techs, tech)
    ensures d in FilterByTech(all, tech)
  {
    if tech != "" {
      FilterKeeps(all, TechFilter(tech), d);
    }
  }

  /** The filter keeps the order of the list: it distributes over concatenation. */
  lemma FilterByTechKeepsOrder(a: seq<DeveloperWithDistance>, b: seq<DeveloperWithDistance>, tech: string)
    ensures FilterByTech(a + b, tech) == FilterByTech(a, tech) + FilterByTech(b, tech)
  {
    if tech != "" {
      FilterAppend(a, b, TechFilter(tech));
    }
  }

  /** The filter is case-insensitive in the searched text. */
  lemma FilterByTechIgnoresCase(all: seq<DeveloperWithDistance>, tech: string)
    requires tech != ""
    ensures FilterByTech(all, tech) == FilterByTech(all, ToLower(tech))
  {
    forall i | 0 <= i < |all| ensures TechFilter(tech)(all[i]) == TechFilter(ToLower(tech))(all[i]) {
      AnyTagMatchesIgnoresCase(all[i].dev.techs, tech);
    }
    FilterAgrees(all, TechFilter(tech), TechFilter(ToLower(tech)));
  }

  // ---------------------------------------------------------------------
  // Location fallback chain, as a function of the outcomes of its steps
  // ---------------------------------------------------------------------

  /**
   * What the device and the network answer during one run of
   * `handleGetLocation`: whether `navigator.geolocation` exists, the two GPS
   * attempts, the app's `/api/location` route (`None` when the request or its
   * JSON decoding throws) and ip-api.com (likewise).
   */
  datatype LocationEnvironment = LocationEnvironment(
    geolocationSupported: bool,
    highAccuracy: GpsOutcome,
    lowAccuracy: GpsOutcome,
    internalApi: Option<LocationResponse>,
    directIpApi: Option<IpApiData>)

  /** Where the chosen coordinate came from. */
  datatype Source = HighAccuracyGps | LowAccuracyGps | InternalIpApi | DirectIpApi | Fallback

  datatype Resolution = Resolution(coord: Coord, source: Source)

  /** `data.latitude && data.longitude`: the route answered with two non-zero coordinates. */
  predicate InternalApiUsable(response: Option<LocationResponse>) {
    response.Some? && response.value.Located? && response.value.latitude != 0.0 && response.value.longitude != 0.0
  }

  /** A direct IP service answered without throwing and with `status === "success"`. */
  predicate ServiceSucceeded(answer: Option<IpApiData>) {
    answer.Some? && IpApiSucceeded(answer.value)
  }

  /** The services `tryIPLocation` walks through after the internal route: ip-api.com alone. */
  function IpServices(env: LocationEnvironment): seq<Option<IpApiData>> {
    [env.directIpApi]
  }

  /** The position of the first service that succeeded, in list order. */
  function FirstIpService(services: seq<Option<IpApiData>>): (r: Option<Coord>)
    ensures r.None? <==> forall k :: 0 <= k < |services| ==> !ServiceSucceeded(services[k])
    ensures r.Some? ==>
      exists k :: 0 <= k < |services| && ServiceSucceeded(services[k])
        && r.value == Coord(services[k].value.lat, services[k].value.lon)
        && (forall j :: 0 <= j < k ==> !ServiceSucceeded(services[j]))
    decreases |services|
  {
    if services == [] then None
    else if ServiceSucceeded(services[0]) then Some(Coord(services[0].value.lat, services[0].value.lon))
    else
      var r := FirstIpService(services[1..]);
      assert forall k :: 1 <= k < |services| ==> services[k] == services[1..][k - 1];
      if r.Some? then
        var k :| 0 <= k < |services[1..]| && ServiceSucceeded(services[1..][k])
          && r.value == Coord(services[1..][k].value.lat, services[1..][k].value.lon)
          && (forall j :: 0 <= j < k ==> !ServiceSucceeded(services[1..][j]));
        assert ServiceSucceeded(services[k + 1]) && r.value == Coord(services[k + 1].value.lat, services[k + 1].value.lon);
        r
      else
        r
  }

  /** `tryIPLocation`: the internal route first, then the direct services; `None` when all fail. */
  function IpLocation(env: LocationEnvironment): (r: Option<Resolution>)
    ensures r.Some? ==> r.value.source == InternalIpApi || r.value.source == DirectIpApi
    ensures InternalApiUsable(env.internalApi) ==>
      r == Some(Resolution(Coord(env.internalApi.value.latitude, env.internalApi.value.longitude), InternalIpApi))
    ensures r.None? <==> !InternalApiUsable(env.internalApi) && !ServiceSucceeded(env.directIpApi)
    ensures !InternalApiUsable(env.internalApi) && ServiceSucceeded(env.directIpApi) ==>
      r == Some(Resolution(Coord(env.directIpApi.value.lat, env.directIpApi.value.lon), DirectIpApi))
  {
    if InternalApiUsable(env.internalApi) then
      Some(Resolution(Coord(env.internalApi.value.latitude, env.internalApi.value.longitude), InternalIpApi))
    else
      match FirstIpService(IpServices(env))
      case Some(c) => Some(Resolution(c, DirectIpApi))
      case None => None
  }

  /** The IP lookup, or the default location when it fails. */
  function IpOrDefault(env: LocationEnvironment): Resolution {
    IpLocation(env).GetOr(Resolution(DefaultLocation, Fallback))
  }

  /** Geolocation exists, the precise attempt failed, and the coarse one was skipped or failed too. */
  predicate ReachesIpLookup(env: LocationEnvironment) {
    env.geolocationSupported && env.highAccuracy.PositionError?
    && !(env.highAccuracy.code != PERMISSION_DENIED && env.lowAccuracy.Fix?)
  }

  /**
   * The coordinate `handleGetLocation` settles on. Without geolocation it is
   * the default, with no IP attempt. A precise fix wins; a denied permission
   * goes straight to the IP lookup, any other error first tries a coarse
   * fix; when the IP lookup fails too, the default is used.
   */
  function ResolveLocation(env: LocationEnvironment): (r: Resolution)
    ensures !env.geolocationSupported ==> r == Resolution(DefaultLocation, Fallback)
    ensures r.source == HighAccuracyGps <==> env.geolocationSupported && env.highAccuracy.Fix?
    ensures r.source == HighAccuracyGps ==> r.coord == env.highAccuracy.coord
    ensures r.source == LowAccuracyGps <==>
      env.geolocationSupported && env.highAccuracy.PositionError? && env.highAccuracy.code != PERMISSION_DENIED
      && env.lowAccuracy.Fix?
    ensures r.source == LowAccuracyGps ==> r.coord == env.lowAccuracy.coord
    ensures r.source == Fallback ==> r.coord == DefaultLocation
    ensures ReachesIpLookup(env) ==> r == IpLocation(env).GetOr(Resolution(DefaultLocation, Fallback))
    ensures r.source == InternalIpApi || r.source == DirectIpApi ==> ReachesIpLookup(env) && IpLocation(env) == Some(r)
  {
    if !env.geolocationSupported then
      Resolution(DefaultLocation, Fallback)
    else
      match env.highAccuracy
      case Fix(c) => Resolution(c, HighAccuracyGps)
      case PositionError(code) =>
        if code != PERMISSION_DENIED && env.lowAccuracy.Fix? then
          Resolution(env.lowAccuracy.coord, LowAccuracyGps)
        else
          IpOrDefault(env)
  }

  /** A denied permission never consults the coarse GPS attempt. */
  lemma PermissionDeniedSkipsLowAccuracy(env: LocationEnvironment, other: GpsOutcome)
    requires env.highAccuracy == PositionError(PERMISSION_DENIED)
    ensures ResolveLocation(env) == ResolveLocation(env.(lowAccuracy := other))
  {
  }

  /** Without geolocation, the IP services are not consulted at all. */
  lemma UnsupportedIgnoresIp(env: LocationEnvironment, internal: Option<LocationResponse>, direct: Option<IpApiData>)
    requires !env.geolocationSupported
    ensures ResolveLocation(env.(internalApi := internal, directIpApi := direct)) == ResolveLocation(env)
  {
  }

  /** A zero coordinate from the internal route counts as a failure of that step. */
  lemma ZeroCoordinateSkipsInternalApi(env: LocationEnvironment)
    requires env.internalApi.Some? && env.internalApi.value.Located?
    requires env.internalApi.value.latitude == 0.0 || env.internalApi.value.longitude == 0.0
    ensures ResolveLocation(env).source != InternalIpApi
  {
  }

  /** When every step fails, the chain ends at the default location. */
  lemma AllStepsFailGiveDefault(env: LocationEnvironment)
    requires env.highAccuracy.PositionError?
    requires env.highAccuracy.code == PERMISSION_DENIED || env.lowAccuracy.PositionError?
    requires !InternalApiUsable(env.internalApi) && !ServiceSucceeded(env.directIpApi)
    ensures ResolveLocation(env) == Resolution(DefaultLocation, Fallback)
  {
  }

  /** The request `handleSearch` sends: `techs: ""` is blank, so no technology goes out. */
  function SearchQueryFor(c: Coord, distanceText: string, parseInt: string -> real): SearchQuery {
    SearchQuery(c.latitude, c.longitude, parseInt(distanceText), None)
  }

  /** The message the page shows for a failed search. */
  function SearchFailureMessage(e: ApiError): (m: string)
    ensures e.status == 0 ==> m == ConnectionRefusedMessage
    ensures e.status != 0 && e.message != "" ==> m == e.message
    ensures m != ""
  {
    if e.status == 0 then ConnectionRefusedMessage
    else if e.message != "" then e.message
    else GenericSearchMessage
  }

  /** The state hooks of the page. */
  class Page {
    var searchDistance: string
    var debouncedTech: string
    var userLocation: Option<Coord>
    var locationLoading: bool
    var loading: bool
    var error: Option<string>
    var apiStatus: ApiStatus
    var allDevelopers: seq<DeveloperWithDistance>
    var filteredDevelopers: seq<DeveloperWithDistance>
    /** Every request sent to the back end, oldest first. */
    var sentQueries: seq<SearchQuery>

    /** The state of a fresh page. */
    constructor()
      ensures searchDistance == InitialDistance && debouncedTech == "" && userLocation.None?
      ensures !locationLoading && !loading && error.None? && apiStatus == Checking
      ensures allDevelopers == [] && filteredDevelopers == [] && sentQueries == []
    {
      searchDistance := InitialDistance;
      debouncedTech := "";
      userLocation := None;
      locationLoading := false;
      loading := false;
      error := None;
      apiStatus := Checking;
      allDevelopers := [];
      filteredDevelopers := [];
      sentQueries := [];
    }

    /**
     * After one search around `c`: exactly one more request was sent, loading
     * is over, and either the developers were replaced by the annotated and
     * sorted reply, or the lists were kept and an error is shown (the
     * connection message, with the API marked offline, when there was no
     * response at all).
     */
    ghost predicate SearchedAround(c: Coord, backend: SearchQuery -> Result<seq<Developer>, Failure>,
                                   distance: DistanceFn, parseInt: string -> real,
                                   sent0: seq<SearchQuery>, all0: seq<DeveloperWithDistance>,
                                   filtered0: seq<DeveloperWithDistance>, status0: ApiStatus)
      reads this
    {
      var q := SearchQueryFor(c, searchDistance, parseInt);
      sentQueries == sent0 + [q] && !loading
      && match backend(q)
         case Ok(devs) =>
           var found := AddDistanceToDevs(devs, c.latitude, c.longitude, distance);
           allDevelopers == found && filteredDevelopers == found && error == None && apiStatus == status0
         case Err(f) =>
           allDevelopers == all0 && filteredDevelopers == filtered0
           && error == Some(SearchFailureMessage(SearchError(f))) && error.value != ""
           && (StatusOf(f) == 0 ==> error.value == ConnectionRefusedMessage && apiStatus == Offline)
           && (StatusOf(f) != 0 ==> apiStatus == status0)
           && (HasCode(f, "ECONNREFUSED") ==> error.value == ConnectionRefusedMessage)
    }

    /** `checkApiStatus`: `healthy` is what `checkApiHealth` resolved to, `None` when it threw. */
    method CheckApiStatus(healthy: Option<bool>)
      modifies this
      ensures apiStatus == (if healthy == Some(true) then Online else Offline)
      ensures searchDistance == old(searchDistance) && userLocation == old(userLocation) && error == old(error)
      ensures sentQueries == old(sentQueries) && allDevelopers == old(allDevelopers)
      ensures filteredDevelopers == old(filteredDevelopers) && loading == old(loading)
      ensures locationLoading == old(locationLoading) && debouncedTech == old(debouncedTech)
    {
      apiStatus := Checking;
      match healthy
      case Some(true) => apiStatus := Online;
      case _ => apiStatus := Offline;
    }

    /** The technology-filter effect, run when `debouncedTech` or `allDevelopers` changes. */
    method TechFilterEffect()
      modifies this
      ensures filteredDevelopers == FilterByTech(allDevelopers, debouncedTech)
      ensures allDevelopers == old(allDevelopers) && debouncedTech == old(debouncedTech)
      ensures searchDistance == old(searchDistance) && userLocation == old(userLocation) && error == old(error)
      ensures sentQueries == old(sentQueries) && apiStatus == old(apiStatus) && loading == old(loading)
      ensures locationLoading == old(locationLoading)
    {
      if debouncedTech == "" {
        filteredDevelopers := allDevelopers;
      } else {
        filteredDevelopers := Filter(allDevelopers, TechFilter(debouncedTech));
      }
    }

    /**
     * `handleSearch(location)`: without a location (neither passed nor
     * stored) nothing happens; otherwise one request around it, with the
     * selected distance and no technology, and its outcome stored.
     */
    method HandleSearch(location: Option<Coord>, backend: SearchQuery -> Result<seq<Developer>, Failure>,
                        distance: DistanceFn, parseInt: string -> real)
      modifies this
      ensures location.None? && old(userLocation).None? ==> unchanged(this)
      ensures searchDistance == old(searchDistance) && userLocation == old(userLocation)
      ensures locationLoading == old(locationLoading) && debouncedTech == old(debouncedTech)
      ensures location.Some? || old(userLocation).Some? ==>
        SearchedAround(if location.Some? then location.value else old(userLocation).value, backend, distance, parseInt,
                       old(sentQueries), old(allDevelopers), old(filteredDevelopers), old(apiStatus))
    {
      var resolved := if location.Some? then location else userLocation;
      if resolved.None? {
        return;
      }
      SearchAround(resolved.value, backend, distance, parseInt);
    }

    /** The body of `handleSearch` once a location is known: one query, then the list or the error. */
    method SearchAround(c: Coord, backend: SearchQuery -> Result<seq<Developer>, Failure>,
                        distance: DistanceFn, parseInt: string -> real)
      modifies this
      ensures searchDistance == old(searchDistance) && userLocation == old(userLocation)
      ensures locationLoading == old(locationLoading) && debouncedTech == old(debouncedTech)
      ensures SearchedAround(c, backend, distance, parseInt,
                             old(sentQueries), old(allDevelopers), old(filteredDevelopers), old(apiStatus))
    {
      loading := true;
      error := None;
      var noTechs := "";
      assert AllWhitespace(noTechs);
      var sent, r := SearchDevelopers(SearchParams(c.latitude, c.longitude, Some(parseInt(searchDistance)), Some(noTechs)), backend);
      assert sent == SearchQueryFor(c, searchDistance, parseInt);
      sentQueries := sentQueries + [sent];
      if r.Ok? {
        ShowDevelopers(r.value, c, distance);
      } else {
        if r.error.status == 0 {
          apiStatus := Offline;
        }
        error := Some(SearchFailureMessage(r.error));
      }
      loading := false;
    }

    /** `setAllDevelopers(devsWithDistance)` and `setFilteredDevelopers(devsWithDistance)`. */
    method ShowDevelopers(devs: seq<Developer>, c: Coord, distance: DistanceFn)
      modifies this
      ensures allDevelopers == AddDistanceToDevs(devs, c.latitude, c.longitude, distance)
      ensures filteredDevelopers == allDevelopers
      ensures searchDistance == old(searchDistance) && debouncedTech == old(debouncedTech)
      ensures userLocation == old(userLocation) && locationLoading == old(locationLoading)
      ensures loading == old(loading) && error == old(error) && apiStatus == old(apiStatus)
      ensures sentQueries == old(sentQueries)
    {
      var found := AddDistanceToDevs(devs, c.latitude, c.longitude, distance);
      allDevelopers := found;
      filteredDevelopers := found;
    }

    /** `useDefaultLocation`: store the default location and search around it. */
    method UseDefaultLocation(backend: SearchQuery -> Result<seq<Developer>, Failure>,
                              distance: DistanceFn, parseInt: string -> real)
      modifies this
      ensures userLocation == Some(DefaultLocation)
      ensures SearchedAround(DefaultLocation, backend, distance, parseInt,
                             old(sentQueries), old(allDevelopers), old(filteredDevelopers), old(apiStatus))
      ensures searchDistance == old(searchDistance) && debouncedTech == old(debouncedTech)
      ensures locationLoading == old(locationLoading)
    {
      userLocation := Some(DefaultLocation);
      HandleSearch(Some(DefaultLocation), backend, distance, parseInt);
    }

    /** The shared success callback of both GPS attempts. */
    method OnSuccess(c: Coord, backend: SearchQuery -> Result<seq<Developer>, Failure>,
                     distance: DistanceFn, parseInt: string -> real)
      modifies this
      ensures userLocation == Some(c) && !locationLoading
      ensures SearchedAround(c, backend, distance, parseInt,
                             old(sentQueries), old(allDevelopers), old(filteredDevelopers), old(apiStatus))
      ensures searchDistance == old(searchDistance) && debouncedTech == old(debouncedTech)
    {
      userLocation := Some(c);
      locationLoading := false;
      HandleSearch(Some(c), backend, distance, parseInt);
    }

    /** `tryIPLocationViaAPI`: succeeds when the internal route gives two non-zero coordinates. */
    method TryIPLocationViaAPI(env: LocationEnvironment, backend: SearchQuery -> Result<seq<Developer>, Failure>,
                               distance: DistanceFn, parseInt: string -> real)
      returns (success: bool)
      modifies this
      ensures success <==> InternalApiUsable(env.internalApi)
      ensures !success ==> unchanged(this)
      ensures success ==>
        var c := Coord(env.internalApi.value.latitude, env.internalApi.value.longitude);
        userLocation == Some(c)
        && SearchedAround(c, backend, distance, parseInt,
                          old(sentQueries), old(allDevelopers), old(filteredDevelopers), old(apiStatus))
      ensures searchDistance == old(searchDistance) && debouncedTech == old(debouncedTech)
      ensures locationLoading == old(locationLoading)
    {
      success := false;
      if InternalApiUsable(env.internalApi) {
        var c := Coord(env.internalApi.value.latitude, env.internalApi.value.longitude);
        userLocation := Some(c);
        HandleSearch(Some(c), backend, distance, parseInt);
        success := true;
      }
    }

    /**
     * `tryIPLocation`: the internal route, then each direct service in turn;
     * a service that throws or answers without success is skipped.
     */
    method TryIPLocation(env: LocationEnvironment, backend: SearchQuery -> Result<seq<Developer>, Failure>,
                         distance: DistanceFn, parseInt: string -> real)
      returns (success: bool)
      modifies this
      ensures success <==> IpLocation(env).Some?
      ensures !success ==> unchanged(this)
      ensures success ==>
        userLocation == Some(IpLocation(env).value.coord)
        && SearchedAround(IpLocation(env).value.coord, backend, distance, parseInt,
                          old(sentQueries), old(allDevelopers), old(filteredDevelopers), old(apiStatus))
      ensures searchDistance == old(searchDistance) && debouncedTech == old(debouncedTech)
      ensures locationLoading == old(locationLoading)
    {
      success := TryIPLocationViaAPI(env, backend, distance, parseInt);
      if success {
        return;
      }
      var services := IpServices(env);
      var i := 0;
      while i < |services|
        invariant 0 <= i <= |services|
        invariant forall k :: 0 <= k < i ==> !ServiceSucceeded(services[k])
        invariant unchanged(this)
      {
        var answer := services[i];
        if answer.Some? && IpApiSucceeded(answer.value) {
          var c := Coord(answer.value.lat, answer.value.lon);
          assert FirstIpService(services) == Some(c);
          userLocation := Some(c);
          HandleSearch(Some(c), backend, distance, parseInt);
          return true;
        }
        i := i + 1;
      }
      return false;
    }

    /** The IP lookup followed, when it fails, by `message` and the default location. */
    method IpThenDefault(env: LocationEnvironment, message: string,
                         backend: SearchQuery -> Result<seq<Developer>, Failure>,
                         distance: DistanceFn, parseInt: string -> real)
      modifies this
      ensures userLocation == Some(IpOrDefault(env).coord) && !locationLoading
      ensures SearchedAround(IpOrDefault(env).coord, backend, distance, parseInt,
                             old(sentQueries), old(allDevelopers), old(filteredDevelopers), old(apiStatus))
      ensures searchDistance == old(searchDistance) && debouncedTech == old(debouncedTech)
    {
      var ipSuccess := TryIPLocation(env, backend, distance, parseInt);
      if !ipSuccess {
        error := Some(message);
        UseDefaultLocation(backend, distance, parseInt);
      }
      locationLoading := false;
    }

    /**
     * `handleGetLocation`: runs the whole fallback chain. Exactly one location
     * is stored, it is `ResolveLocation(env)`, exactly one search is sent
     * around it, and both loading flags end cleared.
     */
    method HandleGetLocation(env: LocationEnvironment, backend: SearchQuery -> Result<seq<Developer>, Failure>,
                             distance: DistanceFn, parseInt: string -> real)
      modifies this
      ensures userLocation == Some(ResolveLocation(env).coord)
      ensures !locationLoading && !loading
      ensures SearchedAround(ResolveLocation(env).coord, backend, distance, parseInt,
                             old(sentQueries), old(allDevelopers), old(filteredDevelopers), old(apiStatus))
      ensures searchDistance == old(searchDistance) && debouncedTech == old(debouncedTech)
    {
      locationLoading := true;
      error := None;
      if !env.geolocationSupported {
        locationLoading := false;
        error := Some(UnsupportedMessage);
        UseDefaultLocation(backend, distance, parseInt);
        return;
      }
      match env.highAccuracy
      case Fix(c) =>
        OnSuccess(c, backend, distance, parseInt);
      case PositionError(code) =>
        var shouldTryFallback := code != PERMISSION_DENIED;
        if shouldTryFallback && code != PERMISSION_DENIED {
          match env.lowAccuracy
          case Fix(c) =>
            OnSuccess(c, backend, distance, parseInt);
          case PositionError(_) =>
            IpThenDefault(env, NoPreciseLocationMessage, backend, distance, parseInt);
        } else {
          IpThenDefault(env, PermissionDeniedMessage, backend, distance, parseInt);
        }
    }
  }
}
