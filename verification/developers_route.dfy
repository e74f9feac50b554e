/**
 * The mock developers route of the Next.js app (`/api/developers`): `GET`
 * searches a fixed list by technology and distance, `POST` validates a new
 * developer and echoes it back.
 */
module DevelopersRoute {
  import opened Js
  import opened Text
  import opened Seqs
  import opened Geo
  import opened Techs
  import opened Auth

  /** `location` of a mock developer. */
  datatype RouteLocation = RouteLocation(latitude: real, longitude: real)

  /** One entry of `mockDevelopers`. */
  datatype MockDeveloper = MockDeveloper(
    id: string,
    name: string,
    githubUsername: string,
    bio: string,
    avatarUrl: string,
    techs: seq<string>,
    location: RouteLocation)

  /** `{ ...dev, location: { ...dev.location, distance } }` */
  datatype NearbyDeveloper = NearbyDeveloper(dev: MockDeveloper, distance: Km)

  /** The search radius of `GET`, in kilometres. */
  const RadiusKm: real := 10.0

  /** `mockDevelopers` */
  const MockDevelopers: seq<MockDeveloper> := [
    MockDeveloper("1", "John Doe", "johndoe", "Full Stack Developer", "https://github.com/johndoe.png",
      ["React", "Node.js", "TypeScript"], RouteLocation(-23.5505, -46.6333)),
    MockDeveloper("2", "Jane Smith", "janesmith", "Frontend Developer", "https://github.com/janesmith.png",
      ["React", "Vue.js", "CSS"], RouteLocation(-23.5605, -46.6433)),
    MockDeveloper("3", "Bob Johnson", "bobjohnson", "Mobile Developer", "https://github.com/bobjohnson.png",
      ["React Native", "Flutter", "Swift"], RouteLocation(-23.5705, -46.6533))
  ]

  /** `dev.techs.some((t) => t.toLowerCase().includes(tech.toLowerCase()))` */
  function HasTech(tech: string): MockDeveloper -> bool {
    (dev: MockDeveloper) => AnyTagMatches(dev.techs, tech)
  }

  /** The `map` step: the developer with its distance from the searched point. */
  function WithDistance(lat: real, lon: real, distance: DistanceFn): MockDeveloper -> NearbyDeveloper {
    (dev: MockDeveloper) => NearbyDeveloper(dev, distance(lat, lon, dev.location.latitude, dev.location.longitude))
  }

  /** `dev.location.distance <= 10` */
  predicate WithinRadius(d: NearbyDeveloper) {
    d.distance <= RadiusKm
  }

  /** The sort key `location.distance`. */
  function NearbyDistance(d: NearbyDeveloper): real {
    d.distance
  }

  /** The developers that survive the technology filter: all of them when `tech` is absent or empty. */
  function TechCandidates(devs: seq<MockDeveloper>, tech: Option<string>): seq<MockDeveloper> {
    if Truthy(tech) then Filter(devs, HasTech(tech.value)) else devs
  }

  /**
   * The search pipeline of `GET`: technology filter, distance annotation,
   * 10 km radius (inclusive), ascending sort by distance.
   */
  function SearchNearby(devs: seq<MockDeveloper>, tech: Option<string>, lat: real, lon: real, distance: DistanceFn)
    : (r: seq<NearbyDeveloper>)
    ensures |r| <= |devs|
    ensures SortedBy(r, NearbyDistance)
  {
    var candidates := TechCandidates(devs, tech);
    SortBy(Filter(Map(candidates, WithDistance(lat, lon, distance)), WithinRadius), NearbyDistance)
  }

  /**
   * Soundness: every result is one of the developers, unchanged, with its
   * distance from the searched point, at most 10 km away, and carrying a tag
   * that contains the requested technology (ignoring case) when one was given.
   */
  lemma SearchNearbySound(devs: seq<MockDeveloper>, tech: Option<string>, lat: real, lon: real, distance: DistanceFn)
    ensures var r: seq<NearbyDeveloper> := SearchNearby(devs, tech, lat, lon, distance);
      forall i :: 0 <= i < |r| ==>
        r[i].dev in devs
        && r[i].distance == distance(lat, lon, r[i].dev.location.latitude, r[i].dev.location.longitude)
        && r[i].distance <= RadiusKm
        && (Truthy(tech) ==> AnyTagMatches(r[i].dev.techs, tech.value))
  {
    var candidates := TechCandidates(devs, tech);
    var annotated := Map(candidates, WithDistance(lat, lon, distance));
    var kept := Filter(annotated, WithinRadius);
    var r := SearchNearby(devs, tech, lat, lon, distance);
    forall i | 0 <= i < |r|
      ensures r[i].dev in devs
      ensures r[i].distance == distance(lat, lon, r[i].dev.location.latitude, r[i].dev.location.longitude)
      ensures r[i].distance <= RadiusKm
      ensures Truthy(tech) ==> AnyTagMatches(r[i].dev.techs, tech.value)
    {
      SortByMember(kept, NearbyDistance, r[i]);
      var j := MapSource(candidates, WithDistance(lat, lon, distance), r[i]);
    }
  }

  /**
   * Completeness: a developer that passes the technology filter and lies at
   * most 10 km away is returned, annotated with its distance. This states
   * membership only, not how many times the developer appears.
   */
  lemma SearchNearbyComplete(devs: seq<MockDeveloper>, tech: Option<string>, lat: real, lon: real,
                             distance: DistanceFn, dev: MockDeveloper)
    requires dev in devs
    requires !Truthy(tech) || AnyTagMatches(dev.techs, tech.value)
    requires distance(lat, lon, dev.location.latitude, dev.location.longitude) <= RadiusKm
    ensures WithDistance(lat, lon, distance)(dev) in SearchNearby(devs, tech, lat, lon, distance)
  {
    var candidates := TechCandidates(devs, tech);
    if Truthy(tech) {
      FilterKeeps(devs, HasTech(tech.value), dev);
    }
    var j :| 0 <= j < |candidates| && candidates[j] == dev;
    var annotated := Map(candidates, WithDistance(lat, lon, distance));
    assert annotated[j] == WithDistance(lat, lon, distance)(dev);
    FilterKeeps(annotated, WithinRadius, annotated[j]);
    SortByKeeps(Filter(annotated, WithinRadius), NearbyDistance, annotated[j]);
  }

  /** Developers at the same distance keep the order of `mockDevelopers`. */
  lemma SearchNearbyStable(devs: seq<MockDeveloper>, tech: Option<string>, lat: real, lon: real,
                           distance: DistanceFn, k: real)
    ensures var kept := Filter(Map(TechCandidates(devs, tech), WithDistance(lat, lon, distance)), WithinRadius);
      Filter(SearchNearby(devs, tech, lat, lon, distance), KeyIs(NearbyDistance, k)) == Filter(kept, KeyIs(NearbyDistance, k))
  {
    var kept := Filter(Map(TechCandidates(devs, tech), WithDistance(lat, lon, distance)), WithinRadius);
    SortByStable(kept, NearbyDistance, k);
  }

  /** The query string of `GET`: `tech`, `latitude` and `longitude` may each be missing. */
  datatype GetQuery = GetQuery(tech: Option<string>, latitude: Option<string>, longitude: Option<string>)

  datatype GetResponse =
    | MissingCoordinates400
    | Developers200(developers: seq<NearbyDeveloper>)

  /**
   * `GET /api/developers`: 400 when either coordinate is missing or empty,
   * otherwise the search over `mockDevelopers` around the parsed coordinates.
   * `parseFloat` stands for `Number.parseFloat`.
   */
  function Get(query: GetQuery, parseFloat: string -> real, distance: DistanceFn): (r: GetResponse)
    ensures r.MissingCoordinates400? <==> !Truthy(query.latitude) || !Truthy(query.longitude)
    ensures r.Developers200? ==>
      r.developers == SearchNearby(MockDevelopers, query.tech,
                                   parseFloat(query.latitude.value), parseFloat(query.longitude.value), distance)
      && SortedBy(r.developers, NearbyDistance)
      && forall i :: 0 <= i < |r.developers| ==> r.developers[i].distance <= RadiusKm
  {
    if !Truthy(query.latitude) || !Truthy(query.longitude) then
      MissingCoordinates400
    else
      var lat, lon := parseFloat(query.latitude.value), parseFloat(query.longitude.value);
      SearchNearbySound(MockDevelopers, query.tech, lat, lon, distance);
      Developers200(SearchNearby(MockDevelopers, query.tech, lat, lon, distance))
  }

  /** A JSON value of the request body, as far as JavaScript truthiness and `split` care. */
  datatype JsonValue =
    | Undefined
    | Null
    | Boolean(b: bool)
    | Number(n: real)
    | Text(s: string)
    | ObjectOrArray

  /** JavaScript truthiness of a JSON value (`NaN` does not occur in JSON). */
  predicate JsonTruthy(v: JsonValue) {
    match v
    case Undefined => false
    case Null => false
    case Boolean(b) => b
    case Number(n) => n != 0.0
    case Text(s) => s != ""
    case ObjectOrArray => true
  }

  /** The body of `POST`: unreadable JSON, or the three fields it reads. */
  datatype PostBody =
    | Unreadable
    | Fields(techs: JsonValue, latitude: JsonValue, longitude: JsonValue)

  datatype PostResponse =
    | Unauthorized401
    | MissingFields400
    | Created201(developer: MockDeveloper)
    | InternalError500

  /** `techs.split(",").map((tech) => tech.trim())`, which keeps the empty pieces. */
  lemma PostTechsKeepEmptyPieces(techs: string)
    ensures |SplitTrimmed(techs)| == multiset(techs)[','] + 1
  {
    SplitCount(techs, ',');
  }

  /**
   * `POST /api/developers`: 401 without a signed-in user; 400 when `techs`,
   * `latitude` or `longitude` is falsy (so a 0 coordinate is refused); 500
   * when the body cannot be read or `techs` is not a string (`split` throws);
   * otherwise 201 with the new developer, whose techs are the comma-separated
   * pieces, trimmed, empty ones kept. `now` is `Date.now().toString()` and
   * `parseFloat` stands for `Number.parseFloat`.
   */
  function Post(session: Option<Session>, body: PostBody, now: string, parseFloat: JsonValue -> real)
    : (r: PostResponse)
    ensures r.Unauthorized401? <==> !SignedIn(session)
    ensures r.MissingFields400? <==>
      SignedIn(session) && body.Fields?
      && (!JsonTruthy(body.techs) || !JsonTruthy(body.latitude) || !JsonTruthy(body.longitude))
    ensures r.InternalError500? <==>
      SignedIn(session)
      && (body.Unreadable?
          || (JsonTruthy(body.techs) && JsonTruthy(body.latitude) && JsonTruthy(body.longitude) && !body.techs.Text?))
    ensures r.Created201? ==>
      body.Fields? && body.techs.Text?
      && r.developer.techs == SplitTrimmed(body.techs.s)
      && r.developer.id == now
      && r.developer.location == RouteLocation(parseFloat(body.latitude), parseFloat(body.longitude))
      && r.developer.name == Or(session.value.user.value.name, "")
      && r.developer.githubUsername == Or(session.value.user.value.username, "")
      && r.developer.bio == Or(session.value.user.value.bio, "")
      && r.developer.avatarUrl == Or(session.value.user.value.image, "")
  {
    if !SignedIn(session) then
      Unauthorized401
    else if body.Unreadable? then
      InternalError500
    else if !JsonTruthy(body.techs) || !JsonTruthy(body.latitude) || !JsonTruthy(body.longitude) then
      MissingFields400
    else if !body.techs.Text? then
      InternalError500
    else
      var user := session.value.user.value;
      Created201(MockDeveloper(
        now,
        Or(user.name, ""),
        Or(user.username, ""),
        Or(user.bio, ""),
        Or(user.image, ""),
        SplitTrimmed(body.techs.s),
        RouteLocation(parseFloat(body.latitude), parseFloat(body.longitude))))
  }
}
