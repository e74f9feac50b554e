/**
 * The HTTP client of the front end (lib/api.ts): the records it exchanges
 * with the Spring back end, the query built for a geographic search, the
 * mapping from a failed request to the `ApiError` the pages display, and the
 * client-side distance annotation and sort.
 *
 * The transport is not modelled: each request takes the back end's reply as
 * a function of what was sent.
 */
module Api {
  import opened Js
  import opened Text
  import opened Seqs
  import opened Geo

  /** `Developer`; the optional `id` is kept in its textual form. */
  datatype Developer = Developer(
    id: Option<string>,
    avatarUrl: string,
    bio: string,
    githubUsername: string,
    latitude: real,
    longitude: real,
    name: string,
    techs: seq<string>)

  /** `{ ...dev, distance }`: a developer with its distance from the user. */
  datatype DeveloperWithDistance = DeveloperWithDistance(dev: Developer, distance: Km)

  /** `SearchParams`: `distance` and `techs` may be left `undefined`. */
  datatype SearchParams = SearchParams(
    latitude: real,
    longitude: real,
    distance: Option<real>,
    techs: Option<string>)

  /** The query string of `GET /devs/search/location`: `techs` is present or absent. */
  datatype SearchQuery = SearchQuery(lat: real, lon: real, distance: real, techs: Option<string>)

  /** `RegisterDeveloperRequest` and `UpdateDeveloperRequest` (identical shapes). */
  datatype DeveloperRequest = DeveloperRequest(
    githubUsername: string,
    techs: seq<string>,
    latitude: real,
    longitude: real)

  /** `ApiError`; `details` (the raw response body) is not modelled. */
  datatype ApiError = ApiError(message: string, status: int)

  /** `error.response`: an HTTP status and the `message` of the JSON body, if any. */
  datatype ErrorResponse = ErrorResponse(status: int, message: Option<string>)

  /** What a request can throw: an axios error or anything else. */
  datatype Failure =
    | AxiosFailure(code: Option<string>, message: Option<string>, response: Option<ErrorResponse>)
    | OtherFailure

  const DefaultSearchDistance: real := 10.0

  const ConnectionRefusedMessage := "Não foi possível conectar ao servidor. Verifique se o backend está rodando."
  const TimeoutMessage := "Tempo limite da requisição excedido. Tente novamente."
  const EndpointNotFoundMessage := "Endpoint não encontrado. Verifique a URL da API."
  const InvalidUpdateDataMessage := "Dados inválidos para atualização."
  const ServerErrorMessage := "Erro interno do servidor. Tente novamente mais tarde."
  const UnknownApiErrorMessage := "Erro desconhecido na API"
  const UnexpectedSearchMessage := "Erro inesperado ao buscar desenvolvedores"
  const AlreadyRegisteredMessage := "Desenvolvedor já cadastrado com este GitHub username."
  const InvalidRegisterDataMessage := "Dados inválidos. Verifique as informações fornecidas."
  const RegisterFailedMessage := "Erro ao registrar desenvolvedor"
  const UnexpectedRegisterMessage := "Erro inesperado ao registrar desenvolvedor"
  const DeveloperNotFoundMessage := "Desenvolvedor não encontrado."
  const UpdateFailedMessage := "Erro ao atualizar desenvolvedor"
  const UnexpectedUpdateMessage := "Erro inesperado ao atualizar desenvolvedor"
  const LookupNotFoundMessage := "Desenvolvedor não encontrado"
  const UnexpectedLookupMessage := "Erro inesperado ao buscar desenvolvedor"

  /** `error.response?.status || 0` */
  function StatusOf(failure: Failure): int {
    if failure.AxiosFailure? && failure.response.Some? then failure.response.value.status else 0
  }

  /** `error.response?.data?.message` */
  function BodyMessage(failure: Failure): Option<string> {
    if failure.AxiosFailure? && failure.response.Some? then failure.response.value.message else None
  }

  /** `error.response?.status === s` */
  predicate HasStatus(failure: Failure, s: int) {
    failure.AxiosFailure? && failure.response.Some? && failure.response.value.status == s
  }

  /** `error.code === c` */
  predicate HasCode(failure: Failure, c: string) {
    failure.AxiosFailure? && failure.code == Some(c)
  }

  /**
   * The query `searchDevelopers` sends: the coordinates, the distance or 10
   * when it is left out, and the trimmed technology text only when it is not
   * blank.
   */
  method BuildSearchQuery(params: SearchParams) returns (query: SearchQuery)
    ensures query.lat == params.latitude && query.lon == params.longitude
    ensures params.distance.Some? ==> query.distance == params.distance.value
    ensures params.distance.None? ==> query.distance == DefaultSearchDistance
    ensures query.techs.Some? <==> params.techs.Some? && !AllWhitespace(params.techs.value)
    ensures query.techs.Some? ==>
      query.techs.value == Trim(params.techs.value) && query.techs.value != "" && IsTrimmed(query.techs.value)
  {
    var distance := params.distance.GetOr(DefaultSearchDistance);
    query := SearchQuery(params.latitude, params.longitude, distance, None);
    if params.techs.Some? && params.techs.value != "" && Trim(params.techs.value) != "" {
      query := query.(techs := Some(Trim(params.techs.value)));
    }
    if params.techs.Some? {
      TrimEmptyIff(params.techs.value);
    }
  }

  /**
   * The `ApiError` that `searchDevelopers` throws. The status is the response
   * status, or 0 without a response. The message is chosen by a fixed
   * priority: connection refused, time-out, 404, 400, 500, and otherwise the
   * server's message, then the axios message, then a generic text. It is
   * never empty.
   */
  function SearchError(failure: Failure): (e: ApiError)
    ensures e.status == StatusOf(failure)
    ensures e.message != ""
    ensures failure.OtherFailure? ==> e == ApiError(UnexpectedSearchMessage, 0)
    ensures HasCode(failure, "ECONNREFUSED") ==> e.message == ConnectionRefusedMessage
    ensures HasCode(failure, "ETIMEDOUT") ==> e.message == TimeoutMessage
    ensures failure.AxiosFailure? && failure.code != Some("ECONNREFUSED") && failure.code != Some("ETIMEDOUT") ==>
      (HasStatus(failure, 404) ==> e.message == EndpointNotFoundMessage)
      && (HasStatus(failure, 400) ==> e.message == InvalidUpdateDataMessage)
      && (HasStatus(failure, 500) ==> e.message == ServerErrorMessage)
      && (!HasStatus(failure, 404) && !HasStatus(failure, 400) && !HasStatus(failure, 500) ==>
            e.message == Or(BodyMessage(failure), Or(failure.message, UnknownApiErrorMessage)))
  {
    if failure.OtherFailure? then ApiError(UnexpectedSearchMessage, 0)
    else
      var message :=
        if HasCode(failure, "ECONNREFUSED") then ConnectionRefusedMessage
        else if HasCode(failure, "ETIMEDOUT") then TimeoutMessage
        else if HasStatus(failure, 404) then EndpointNotFoundMessage
        else if HasStatus(failure, 400) then InvalidUpdateDataMessage
        else if HasStatus(failure, 500) then ServerErrorMessage
        else Or(BodyMessage(failure), Or(failure.message, UnknownApiErrorMessage));
      ApiError(message, StatusOf(failure))
  }

  /**
   * `searchDevelopers`: sends the query of `BuildSearchQuery` and returns the
   * back end's list, or throws the `SearchError` of its failure.
   */
  method SearchDevelopers(params: SearchParams, backend: SearchQuery -> Result<seq<Developer>, Failure>)
    returns (sent: SearchQuery, r: Result<seq<Developer>, ApiError>)
    ensures sent.lat == params.latitude && sent.lon == params.longitude
    ensures sent.distance == params.distance.GetOr(DefaultSearchDistance)
    ensures sent.techs.Some? <==> params.techs.Some? && !AllWhitespace(params.techs.value)
    ensures sent.techs.Some? ==> sent.techs.value == Trim(params.techs.value)
    ensures backend(sent).Ok? <==> r.Ok?
    ensures r.Ok? ==> r.value == backend(sent).value
    ensures r.Err? ==> r.error == SearchError(backend(sent).error)
  {
    sent := BuildSearchQuery(params);
    var reply := backend(sent);
    if reply.Ok? {
      r := Ok(reply.value);
    } else {
      r := Err(SearchError(reply.error));
    }
  }

  /**
   * The `ApiError` that `registerDeveloper` throws: 409 (already registered)
   * wins over 400 (invalid data), which wins over a refused connection;
   * otherwise the server's message or a generic text.
   */
  function RegisterError(failure: Failure): (e: ApiError)
    ensures e.status == StatusOf(failure)
    ensures e.message != ""
    ensures failure.OtherFailure? ==> e == ApiError(UnexpectedRegisterMessage, 0)
    ensures HasStatus(failure, 409) ==> e.message == AlreadyRegisteredMessage
    ensures HasStatus(failure, 400) ==> e.message == InvalidRegisterDataMessage
    ensures failure.AxiosFailure? && !HasStatus(failure, 409) && !HasStatus(failure, 400) ==>
      (HasCode(failure, "ECONNREFUSED") ==> e.message == ConnectionRefusedMessage)
      && (!HasCode(failure, "ECONNREFUSED") ==> e.message == Or(BodyMessage(failure), RegisterFailedMessage))
  {
    if failure.OtherFailure? then ApiError(UnexpectedRegisterMessage, 0)
    else
      var message :=
        if HasStatus(failure, 409) then AlreadyRegisteredMessage
        else if HasStatus(failure, 400) then InvalidRegisterDataMessage
        else if HasCode(failure, "ECONNREFUSED") then ConnectionRefusedMessage
        else Or(BodyMessage(failure), RegisterFailedMessage);
      ApiError(message, StatusOf(failure))
  }

  /**
   * The `ApiError` that `updateDeveloperById` throws: 404 means not found,
   * 400 invalid data; otherwise the server's message or a generic text.
   */
  function UpdateError(failure: Failure): (e: ApiError)
    ensures e.status == StatusOf(failure)
    ensures e.message != ""
    ensures failure.OtherFailure? ==> e == ApiError(UnexpectedUpdateMessage, 0)
    ensures HasStatus(failure, 404) ==> e.message == DeveloperNotFoundMessage
    ensures HasStatus(failure, 400) ==> e.message == InvalidUpdateDataMessage
    ensures failure.AxiosFailure? && !HasStatus(failure, 404) && !HasStatus(failure, 400) ==>
      e.message == Or(BodyMessage(failure), UpdateFailedMessage)
  {
    if failure.OtherFailure? then ApiError(UnexpectedUpdateMessage, 0)
    else
      var message :=
        if HasStatus(failure, 404) then DeveloperNotFoundMessage
        else if HasStatus(failure, 400) then InvalidUpdateDataMessage
        else Or(BodyMessage(failure), UpdateFailedMessage);
      ApiError(message, StatusOf(failure))
  }

  /**
   * The `ApiError` that `getDeveloperByUsername` throws: the response status
   * (0 without one) and the server's message, defaulting to "not found".
   */
  function LookupError(failure: Failure): (e: ApiError)
    ensures e.status == StatusOf(failure)
    ensures e.message != ""
    ensures failure.AxiosFailure? && Truthy(BodyMessage(failure)) ==> e.message == BodyMessage(failure).value
    ensures failure.AxiosFailure? && !Truthy(BodyMessage(failure)) ==> e.message == LookupNotFoundMessage
    ensures failure.OtherFailure? ==> e.message == UnexpectedLookupMessage
  {
    if failure.OtherFailure? then ApiError(UnexpectedLookupMessage, 0)
    else ApiError(Or(BodyMessage(failure), LookupNotFoundMessage), StatusOf(failure))
  }

  /** `registerDeveloper`: the back end's developer, or the `RegisterError` of its failure. */
  method RegisterDeveloper(request: DeveloperRequest, backend: DeveloperRequest -> Result<Developer, Failure>)
    returns (r: Result<Developer, ApiError>)
    ensures backend(request).Ok? <==> r.Ok?
    ensures r.Ok? ==> r.value == backend(request).value
    ensures r.Err? ==> r.error == RegisterError(backend(request).error)
  {
    var reply := backend(request);
    if reply.Ok? {
      r := Ok(reply.value);
    } else {
      r := Err(RegisterError(reply.error));
    }
  }

  /** `updateDeveloperById`: the back end's developer, or the `UpdateError` of its failure. */
  method UpdateDeveloperById(id: string, request: DeveloperRequest,
                             backend: (string, DeveloperRequest) -> Result<Developer, Failure>)
    returns (r: Result<Developer, ApiError>)
    ensures backend(id, request).Ok? <==> r.Ok?
    ensures r.Ok? ==> r.value == backend(id, request).value
    ensures r.Err? ==> r.error == UpdateError(backend(id, request).error)
  {
    var reply := backend(id, request);
    if reply.Ok? {
      r := Ok(reply.value);
    } else {
      r := Err(UpdateError(reply.error));
    }
  }

  /** `getDeveloperByUsername`: the back end's developer, or the `LookupError` of its failure. */
  function GetDeveloperByUsername(username: string, backend: string -> Result<Developer, Failure>)
    : (r: Result<Developer, ApiError>)
    ensures backend(username).Ok? <==> r.Ok?
    ensures r.Ok? ==> r.value == backend(username).value
    ensures r.Err? ==> r.error == LookupError(backend(username).error)
  {
    match backend(username)
    case Ok(dev) => Ok(dev)
    case Err(failure) => Err(LookupError(failure))
  }

  /** The sort key of `addDistanceToDevs`. */
  function DistanceOf(d: DeveloperWithDistance): real {
    d.distance
  }

  /** The developer an annotated entry was made from. */
  function DeveloperOf(d: DeveloperWithDistance): Developer {
    d.dev
  }

  /** `(dev) => ({ ...dev, distance: calculateDistance(userLat, userLon, dev.latitude, dev.longitude) })` */
  function Annotate(userLat: real, userLon: real, distance: DistanceFn): Developer -> DeveloperWithDistance {
    (dev: Developer) => DeveloperWithDistance(dev, distance(userLat, userLon, dev.latitude, dev.longitude))
  }

  /**
   * `addDistanceToDevs`: every developer annotated with its distance from the
   * user, then sorted by that distance, nearest first. No radius filter.
   */
  function AddDistanceToDevs(developers: seq<Developer>, userLat: real, userLon: real, distance: DistanceFn)
    : (r: seq<DeveloperWithDistance>)
    ensures |r| == |developers|
    ensures SortedBy(r, DistanceOf)
    ensures multiset(r) == multiset(Map(developers, Annotate(userLat, userLon, distance)))
  {
    SortBy(Map(developers, Annotate(userLat, userLon, distance)), DistanceOf)
  }

  /**
   * Every entry of `addDistanceToDevs` is an input developer, unchanged, with
   * the distance from the user to that developer's coordinates.
   */
  lemma AddDistanceEntries(developers: seq<Developer>, userLat: real, userLon: real, distance: DistanceFn)
    ensures var r: seq<DeveloperWithDistance> := AddDistanceToDevs(developers, userLat, userLon, distance);
      forall i :: 0 <= i < |r| ==>
        r[i].dev in developers
        && r[i].distance == distance(userLat, userLon, r[i].dev.latitude, r[i].dev.longitude)
  {
    var annotated := Map(developers, Annotate(userLat, userLon, distance));
    var r := AddDistanceToDevs(developers, userLat, userLon, distance);
    forall i | 0 <= i < |r|
      ensures r[i].dev in developers
      ensures r[i].distance == distance(userLat, userLon, r[i].dev.latitude, r[i].dev.longitude)
    {
      assert r[i] in multiset(annotated);
      var j :| 0 <= j < |annotated| && annotated[j] == r[i];
      assert r[i].dev == developers[j];
    }
  }

  /**
   * `addDistanceToDevs` returns exactly one entry per input developer: the
   * developers behind the entries are a permutation of the input.
   */
  lemma AddDistanceOnePerDeveloper(developers: seq<Developer>, userLat: real, userLon: real, distance: DistanceFn)
    ensures multiset(Map(AddDistanceToDevs(developers, userLat, userLon, distance), DeveloperOf))
         == multiset(developers)
  {
    var annotated := Map(developers, Annotate(userLat, userLon, distance));
    MapPermutation(AddDistanceToDevs(developers, userLat, userLon, distance), annotated, DeveloperOf);
    assert Map(annotated, DeveloperOf) == developers;
  }

  /** Developers at the same distance keep the order in which the back end listed them. */
  lemma AddDistanceStable(developers: seq<Developer>, userLat: real, userLon: real, distance: DistanceFn, k: real)
    ensures var annotated := Map(developers, Annotate(userLat, userLon, distance));
      Filter(AddDistanceToDevs(developers, userLat, userLon, distance), KeyIs(DistanceOf, k))
      == Filter(annotated, KeyIs(DistanceOf, k))
  {
    SortByStable(Map(developers, Annotate(userLat, userLon, distance)), DistanceOf, k);
  }
}
