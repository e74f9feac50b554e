# DevRadar in Dafny

DevRadar is a Next.js application that finds developers near the user by
technology. This project models the decision and list-processing logic
beneath its pages, routes and components, and proves what that logic
promises:

- the geo-search pipeline: the mock `/api/developers` route filters by
  technology, annotates distances, keeps a 10 km radius and sorts; the
  client annotates and sorts the back end's reply and filters it by
  technology locally;
- the three location-acquisition fallback chains: the search page (precise
  GPS, coarse GPS, IP through the app's route and then ip-api.com, a fixed
  default), the profile page (GPS, IP, default, each tagged with its source)
  and the register page (GPS, then the default);
- technology-text parsing (`processTechs` and the route's `split`), the
  ordered form checks of the register and profile pages, and the GitHub
  username fallback;
- request and error shaping in `lib/api.ts`, the client-IP extraction of
  `/api/location`, the middleware's protected-path redirect and the
  navigation links;
- the bookkeeping of the Leaflet map component: zoom ladder, circle radius,
  the marker list rebuilt on every update, and the choice of view.

Pure code is written as functions and lemmas. Code that updates state step
by step is written as classes whose fields are the component's state hooks
or refs. These are `SearchPage.Page`, `ProfilePage.Page`,
`RegisterPage.Page` and `DeveloperMap.MapComponent`. Their methods are
proved against the specification functions next to them (for example
`ResolveLocation`, `ValidateUpdate` and `ValidateRegistration`).

Device and network calls are inputs. A GPS attempt is a `GpsOutcome`. An
HTTP reply is a `Result` or a small answer datatype. The back end is a
function parameter, and so are `calculateDistance` (a `DistanceFn` returning
a non-negative real), `Number.parseFloat`, `Number.parseInt` and
`encodeURI`.

Shared building blocks:

- `Js`: `undefined`, results of throwing calls, truthiness, `||`.
- `Text`: `trim`, `toLowerCase`, `includes`, `startsWith`, `split` and
  `join` on one separator.
- `Seqs`: `map`, `filter` and a stable sort.
- `Geo`: coordinates, distances and GPS outcomes.
- `Techs`: the technology parsing and the tag match.
- `Api`: `lib/api.ts`.
- `Auth`: what the pages read from a session.

## Model

| member | source | states |
|---|---|---|
| Api.AddDistanceToDevs | lib/api.ts:317-333 | one entry per input developer; sorted ascending by distance; a permutation of the annotated input; no radius filter |
| Api.AddDistanceEntries | lib/api.ts:322-331 | every entry is an input developer, unchanged, with `distance = calculateDistance(userLat, userLon, dev.latitude, dev.longitude)` |
| Api.AddDistanceOnePerDeveloper | lib/api.ts:317-333 | the developers behind the entries are a permutation of the input: each appears exactly as often as it was given |
| Api.AddDistanceStable | lib/api.ts:332 | entries at the same distance keep the back end's order (the sort is stable) |
| Api.BuildSearchQuery | lib/api.ts:78-88 | `lat`, `lon` and `distance` are always sent; distance defaults to 10; `techs` is sent iff its trimmed text is non-empty, and then it is that trimmed text |
| Api.SearchError | lib/api.ts:104-136 | status is the response status or 0; message priority: ECONNREFUSED, ETIMEDOUT, 404, 400, 500, then server message, then `error.message`, then the default; a non-axios error gives status 0 and a fixed message; never empty |
| Api.SearchDevelopers | lib/api.ts:74-138 | the request sent is the one `BuildSearchQuery` specifies; success returns the back end's list unchanged; a failure is exactly the `SearchError` of the back end's failure |
| Api.RegisterError | lib/api.ts:154-180 | 409 wins over 400, which wins over ECONNREFUSED; otherwise the server message or the default; status falls back to 0; never empty |
| Api.RegisterDeveloper | lib/api.ts:140-182 | the back end's developer on success; otherwise exactly the `RegisterError` of its failure |
| Api.UpdateError | lib/api.ts:202-223 | 404 gives "not found", 400 gives "invalid data"; otherwise the server message or the default; status falls back to 0; never empty |
| Api.UpdateDeveloperById | lib/api.ts:184-225 | the back end's developer on success; otherwise exactly the `UpdateError` of its failure |
| Api.LookupError | lib/api.ts:243-258 | status is the response status or 0; a truthy server message is the message, otherwise "not found"; a non-axios error gives a fixed message; never empty |
| Api.GetDeveloperByUsername | lib/api.ts:227-260 | success iff the back end found the developer, which is returned unchanged; otherwise exactly the `LookupError` of its failure |
| Js.Or | app/api/developers/route.ts:137-140 | `a \|\| b` is empty iff `a` is falsy and `b` is empty, so a non-empty fallback always yields a non-empty text; a non-empty `a` wins |
| Techs.SplitTrimmed | app/api/developers/route.ts:141 | every piece of `split(",").map(trim)` is trimmed and comma-free (empty pieces kept) |
| Techs.ProcessTechs | app/profile/page.tsx:237-242 | every technology kept by `processTechs` is non-empty, trimmed and comma-free |
| Techs.ProcessTechsKeepsNonEmpty | app/register/page.tsx:172-177 | completeness of `processTechs`: every non-empty trimmed piece is kept |
| Techs.ProcessTechsOneField | app/register/page.tsx:172-177 | a comma-free text gives its trimmed self, or nothing when blank |
| Techs.ProcessTechsFirstField | app/profile/page.tsx:237-242 | a field before the first comma contributes its technology in front of those of the rest, preserving order |
| Techs.ProcessTechsPadded | app/profile/page.tsx:237-242 | leading blanks before a ", "-joined list of well-formed technologies do not change what `processTechs` parses |
| Techs.ProcessTechsJoin | app/profile/page.tsx:86 | round trip: well-formed technologies joined with ", " parse back to the same list |
| Techs.ProcessTechsOnlyCommas | app/profile/page.tsx:256-282 | a text of commas alone is not blank, yet `processTechs` finds no technology in it, so the last check of the form is reachable |
| Techs.AnyTagMatchesIgnoresCase | app/api/developers/route.ts:87 | the tag match ignores the case of the query |
| Techs.EmptyQueryMatchesAnyTag | app/search/page.tsx:84-88 | an empty query matches exactly the developers that have at least one tag |
| Techs.UpperCaseQueryMatches | app/api/developers/route.ts:87 | the match is a case-insensitive substring test: "REACT" matches "React Native" |
| DevelopersRoute.SearchNearby | app/api/developers/route.ts:83-109 | the result is sorted ascending by distance and is no longer than the list |
| DevelopersRoute.SearchNearbySound | app/api/developers/route.ts:85-109 | every result is a listed developer, unchanged, with its distance, at most 10 km away, and with a tag containing the technology (ignoring case) when one is given |
| DevelopersRoute.SearchNearbyComplete | app/api/developers/route.ts:85-109 | every developer passing the technology filter at most 10 km away is returned, annotated |
| DevelopersRoute.SearchNearbyStable | app/api/developers/route.ts:109 | developers at the same distance keep the order of the list |
| DevelopersRoute.Get | app/api/developers/route.ts:67-112 | 400 iff `latitude` or `longitude` is missing or empty; otherwise the pipeline over `mockDevelopers` around the parsed point, sorted and within 10 km |
| DevelopersRoute.PostTechsKeepEmptyPieces | app/api/developers/route.ts:141 | the route's split yields one piece per comma-separated field, empty pieces included |
| DevelopersRoute.Post | app/api/developers/route.ts:114-156 | 401 iff no session user; 400 iff some required field is falsy (so a 0 coordinate is refused); 500 for an unreadable body or non-string `techs`; otherwise 201 with the split technologies, id `now`, and the session's name, username, bio and image, each defaulting to "" |
| LocationRoute.ClientIp | app/api/location/route.ts:5-6 | the text before the first comma of `x-forwarded-for`, untrimmed; "127.0.0.1" for a missing or empty header |
| LocationRoute.ClientIpSingleAddress | app/api/location/route.ts:6 | a header without a comma is used whole |
| LocationRoute.Get | app/api/location/route.ts:3-24 | 500 iff the lookup throws; 404 iff the status is not "success"; otherwise latitude, longitude, city and country from the answer |
| Middleware.Decide | middleware.ts:5-25 | redirect iff the path is protected and there is no token; the redirect goes to "/login" with `callbackUrl` set to the encoded request URL |
| Middleware.Respond | middleware.ts:5-29 | only paths the matcher selects reach the middleware: a redirect to "/login" with the encoded URL iff the path is matched and there is no token |
| Middleware.MatchedIsProtected | middleware.ts:8-29 | every path the matcher selects passes the middleware's prefix test |
| Middleware.MatcherCoversSubPages | middleware.ts:27-29 | "/profile", "/register" and every path below them are matched |
| Middleware.ProtectedPrefixes | middleware.ts:8-9 | every path starting with "/profile" or "/register" passes the prefix test, sub-pages included |
| Middleware.SimilarPathPasses | middleware.ts:8-29 | the prefix test alone accepts "/profiles", but the matcher does not select it, so it passes without a token |
| Middleware.PublicPagesPass | middleware.ts:27-29 | "/", "/search" and "/login" pass without a token |
| NavLinks.Links | components/nav-links.tsx:12-31 | the list starts with "/" and "/search"; a third link exists iff signed in with a session or signed out; the debug link is never rendered |
| NavLinks.ComputeLinks | components/nav-links.tsx:17-52 | the pushes build exactly `Links`: "/profile" when authenticated, "/register" when unauthenticated, the base links alone while loading; the loading indicator shows iff loading |
| NavLinks.AtMostOneActive | components/nav-links.tsx:41 | at most one rendered link is active for any path |
| DeveloperMap.ZoomFor | components/developer-map.tsx:112 | zoom 14 iff radius ≤ 5, 11 iff radius > 20, always between 11 and 14 |
| DeveloperMap.ZoomNonIncreasing | components/developer-map.tsx:112 | a wider radius never gives a larger zoom |
| DeveloperMap.ZoomForOfferedRadii | components/developer-map.tsx:112 | the zoom for each radius the search page offers |
| DeveloperMap.MapComponent.constructor | components/developer-map.tsx:23-25 | the refs start empty and there is no map |
| DeveloperMap.MapComponent.Update | components/developer-map.tsx:39-114 | the map is created only when none exists and the container does, and a new map holds the tile layer and the user marker; there is then exactly one circle, of `searchRadius * 1000` m (radius 10 by default); `markersRef` holds exactly one marker per developer, in order, and the old markers are off the map; every other layer on an existing map stays on it unchanged; the view fits all layers when there are developers, otherwise it is centred at the ladder zoom |
| DeveloperMap.MapComponent.Redraw | components/developer-map.tsx:58-114 | on an existing map: exactly one circle, of `radius * 1000` m; exactly one marker per developer, in order, with the old markers off the map; every other layer (tiles, user marker) stays on the map unchanged; the view fits markers, user and circle when there are developers, otherwise it is centred at the ladder zoom |
| DeveloperMap.MapComponent.CreateMap | components/developer-map.tsx:39-56 | the new map holds the tiles and the user marker, centred at zoom 13 |
| DeveloperMap.MapComponent.RedrawCircle | components/developer-map.tsx:58-70 | the previous circle is removed and a new one of `radius * 1000` m is added |
| DeveloperMap.MapComponent.ClearMarkers | components/developer-map.tsx:73-76 | every previous marker is removed from the map and the list is emptied |
| DeveloperMap.MapComponent.ReplaceMarkers | components/developer-map.tsx:72-100 | the previous markers are off the map and one marker per developer, in order, is on it; every other layer on the map stays, and no existing layer changes |
| DeveloperMap.MapComponent.AddMarkers | components/developer-map.tsx:78-100 | one new marker per developer, pushed in order, each on the map |
| DeveloperMap.MapComponent.AddMarker | components/developer-map.tsx:76-99 | one fresh layer, the developer's marker, is added to the map and pushed onto `markersRef`; no existing layer changes |
| DeveloperMap.MapComponent.Cleanup | components/developer-map.tsx:123-128 | the map is removed with all its layers |
| SearchPage.FilterByTech | app/search/page.tsx:80-91 | an empty text keeps every developer; otherwise every kept developer has a tag containing the text, ignoring case |
| SearchPage.FilterByTechComplete | app/search/page.tsx:84-88 | a developer with a matching tag is never dropped |
| SearchPage.FilterByTechKeepsOrder | app/search/page.tsx:84-88 | the filter distributes over concatenation, so the original order is kept |
| SearchPage.FilterByTechIgnoresCase | app/search/page.tsx:86 | filtering by a text and by its lower-case form gives the same list |
| SearchPage.FirstIpService | app/search/page.tsx:174-203 | the first service that answered "success", in list order; none iff every service failed or threw |
| SearchPage.IpLocation | app/search/page.tsx:118-204 | the internal route wins, with its coordinate, when it gives two non-zero coordinates; otherwise ip-api.com's coordinate when it answered "success"; fails iff both fail |
| SearchPage.ResolveLocation | app/search/page.tsx:103-325 | exactly one coordinate: the default without geolocation; a precise fix iff it succeeded; a coarse fix iff the first error was not a denied permission and the coarse attempt succeeded; otherwise the IP lookup's coordinate, else the default; an IP source only when the chain reached the IP step |
| SearchPage.PermissionDeniedSkipsLowAccuracy | app/search/page.tsx:281-315 | a denied permission never consults the coarse GPS attempt |
| SearchPage.UnsupportedIgnoresIp | app/search/page.tsx:207-218 | without geolocation the IP services play no part |
| SearchPage.ZeroCoordinateSkipsInternalApi | app/search/page.tsx:124 | a 0 coordinate from the internal route counts as a failure of that step |
| SearchPage.AllStepsFailGiveDefault | app/search/page.tsx:251-268 | when every step fails, the chain ends at the default location |
| SearchPage.SearchFailureMessage | app/search/page.tsx:415-424 | status 0 gives the connection message; otherwise the API message, else the generic text; never empty |
| SearchPage.Page.constructor | app/search/page.tsx:45-63 | the initial state hooks, distance "10" |
| SearchPage.Page.CheckApiStatus | app/search/page.tsx:93-101 | online iff the health check answered true; offline when it answered false or threw |
| SearchPage.Page.TechFilterEffect | app/search/page.tsx:80-91 | `filteredDevelopers` becomes `FilterByTech(allDevelopers, debouncedTech)`; nothing else changes |
| SearchPage.Page.HandleSearch | app/search/page.tsx:367-435 | without a location nothing changes; otherwise one request with `parseInt(searchDistance)` and no technology; on success both lists become the annotated, sorted reply; on failure the lists are kept and the error shown is `SearchFailureMessage` of the `SearchError` of the back end's failure, and status 0 marks the API offline |
| SearchPage.Page.SearchAround | app/search/page.tsx:386-434 | one request is sent around the given point; success replaces both lists with the annotated, sorted reply; a failure keeps them and shows `SearchFailureMessage` of the `SearchError` of the back end's failure, with the API offline for status 0; loading ends cleared |
| SearchPage.Page.ShowDevelopers | app/search/page.tsx:404-406 | both lists become `addDistanceToDevs` of the reply; nothing else changes |
| SearchPage.Page.UseDefaultLocation | app/search/page.tsx:108-115 | stores the default location and searches around it |
| SearchPage.Page.OnSuccess | app/search/page.tsx:235-244 | stores the fix, clears the loading flag, searches around it |
| SearchPage.Page.TryIPLocationViaAPI | app/search/page.tsx:118-145 | succeeds iff the internal route gave two non-zero coordinates, then stores them and searches; otherwise nothing changes |
| SearchPage.Page.TryIPLocation | app/search/page.tsx:148-204 | succeeds iff `IpLocation` does, storing its coordinate and searching once; on failure nothing changes |
| SearchPage.Page.IpThenDefault | app/search/page.tsx:251-268 | the IP lookup, or the default location when it fails; loading cleared; one search around the result |
| SearchPage.Page.HandleGetLocation | app/search/page.tsx:103-325 | the stored location is `ResolveLocation(env)`; exactly one search is sent around it; both loading flags end cleared |
| ProfilePage.GetLocationFromIP | app/profile/page.tsx:122-154 | a response that is not ok throws with its status; "success" gives an "ip" location with city, `regionName` and country; any other status throws with the service message or a fixed text |
| ProfilePage.ServiceFailureMessageNonEmpty | app/profile/page.tsx:148 | a service failure always carries a non-empty message |
| ProfilePage.IpOrDefault | app/profile/page.tsx:190-209 | the location the IP lookup returned iff it succeeded, the default otherwise |
| ProfilePage.ProfileLocation | app/profile/page.tsx:156-235 | source "gps" iff geolocation exists and the fix succeeded, with the fix's coordinates; "ip" iff no fix and the IP lookup succeeded, and then exactly the lookup's location; otherwise the default; never "database" |
| ProfilePage.UnsupportedNeverUsesGps | app/profile/page.tsx:211-232 | without geolocation the GPS outcome plays no part |
| ProfilePage.UnsupportedTriesIp | app/profile/page.tsx:211-215 | without geolocation a successful IP lookup is used |
| ProfilePage.LocationDisplayText | app/profile/page.tsx:321-334 | each source maps to its fixed label; an IP location starts with "Via IP: " |
| ProfilePage.DisplayTextDeterminesSource | app/profile/page.tsx:321-334 | equal labels mean equal sources |
| ProfilePage.ValidateUpdate | app/profile/page.tsx:247-292 | the checks in order: an id, non-blank techs, a location, at least one processed tech; each rejection iff the earlier checks passed and it failed; the payload is the stored username, processed techs and current coordinates |
| ProfilePage.JoinHead | app/profile/page.tsx:86 | a ", "-join of techs starts with the first tech's first character |
| ProfilePage.LoadThenUpdateKeepsTechs | app/profile/page.tsx:86 | round trip: saving a freshly loaded profile sends back its technologies and username |
| ProfilePage.UpdateFailureMessage | app/profile/page.tsx:311-313 | the API message, or a fixed text when it is empty; never empty |
| ProfilePage.Page.constructor | app/profile/page.tsx:49-54 | the initial state hooks |
| ProfilePage.Page.SessionStatusEffect | app/profile/page.tsx:62-66 | an unauthenticated visitor is sent to "/login"; every other field, the three loading flags included, is unchanged |
| ProfilePage.Page.LoadDeveloperProfile | app/profile/page.tsx:75-120 | nothing without a username; otherwise the profile flag ends cleared and the other flags are kept; a found profile fills the form (techs joined with ", ", coordinates tagged "database"); a 404 schedules "/register"; another error leaves the form |
| ProfilePage.Page.HandleGetLocation | app/profile/page.tsx:156-235 | the stored location is `ProfileLocation(...)` and the loading flag ends cleared |
| ProfilePage.Page.HandleUpdateProfile | app/profile/page.tsx:244-319 | rejected iff `ValidateUpdate` rejects, then nothing changes; otherwise exactly one update is sent, the form and the other flags are kept, a success replaces the stored developer and a failure carries the message of `UpdateError` of the back end's failure |
| ProfilePage.Page.SendUpdate | app/profile/page.tsx:284-318 | exactly one update is sent and loading ends cleared; the form, the navigations and the other flags are kept; success stores the returned developer; a failure keeps it and carries the non-empty message of `UpdateError` of the back end's failure |
| RegisterPage.EmailLocalPart | app/register/page.tsx:226 | the text before the first "@": a prefix of the email with no "@", followed by "@" or the end |
| RegisterPage.GithubUsername | app/register/page.tsx:224-228 | the username, else the email's local part, else the name, else ""; empty iff all three are |
| RegisterPage.GithubUsernameWholeEmail | app/register/page.tsx:226 | an email without "@" is used whole |
| RegisterPage.GithubUsernameSkipsEmptyLocalPart | app/register/page.tsx:226-227 | an email starting with "@" gives an empty local part, so the name is used |
| RegisterPage.RegisterLocation | app/register/page.tsx:99-170 | a fix is stored; any GPS error stores the default; without geolocation the location is unchanged |
| RegisterPage.RegisterLocationAlwaysSet | app/register/page.tsx:115-120 | with geolocation a location is always stored, whatever the error code |
| RegisterPage.ValidateRegistration | app/register/page.tsx:182-232 | the checks in order: a session user, non-blank techs, a location, at least one processed tech; each rejection iff the earlier checks passed and it failed; the request carries the fallback username |
| RegisterPage.RegistrationTechsWellFormed | app/register/page.tsx:210-229 | the technologies sent are non-empty, trimmed and comma-free, and there is at least one |
| RegisterPage.MentionsAlreadyExistsIsIncludes | app/register/page.tsx:259 | the positional test is exactly `message.includes("já existe")` |
| RegisterPage.RegisterFailureMessage | app/register/page.tsx:251-256 | the API message, or a fixed text when it is empty; never empty |
| RegisterPage.Page.constructor | app/register/page.tsx:34-42 | the initial state hooks |
| RegisterPage.Page.SessionStatusEffect | app/register/page.tsx:44-48 | an unauthenticated visitor is sent to "/login"; every other field, the three loading flags included, is unchanged |
| RegisterPage.Page.CheckExistingProfile | app/register/page.tsx:56-97 | nothing without a username; otherwise the check flag ends cleared and the form and other flags are kept; a found profile sets `existingProfile` and schedules "/profile"; a 404 clears it; another error leaves it |
| RegisterPage.Page.HandleGetLocation | app/register/page.tsx:99-170 | the stored location is `RegisterLocation(...)` and the loading flag ends cleared; every other field is unchanged |
| RegisterPage.Page.HandleSubmit | app/register/page.tsx:179-272 | rejected iff `ValidateRegistration` rejects, then nothing changes; otherwise exactly one registration is sent and the form and other flags are kept; success goes to "/profile"; a failure shows the non-empty message of `RegisterError` of the back end's failure and goes to "/profile" iff that error has status 409 or mentions "já existe" |
| RegisterPage.Page.Register | app/register/page.tsx:220-271 | one request is sent; the form and other flags are kept; success goes to "/profile"; a failure shows the message of `RegisterError` of the back end's failure and is redirected iff the status is 409 or the message mentions "já existe" |

## Left out

- `calculateDistance` and `deg2rad`: the haversine trigonometry is not modelled. Every operation takes the distance as a `DistanceFn` returning a non-negative real.
- `Number.parseFloat`, `Number.parseInt`, `toString` and `NaN` are not modelled. The parsers are function parameters.
- axios, `fetch`, the interceptors, logging and `navigator.geolocation` are not modelled. Their outcomes are inputs: `GpsOutcome`, `IpAnswer`, `LocationEnvironment` and back-end functions.
- `checkApiHealth` itself is not modelled; `CheckApiStatus` takes its answer.
- `getDeveloper` (lookup by id) is not modelled: no page of the modelled core calls it.
- Promise timing, the 500 ms debounce of `searchTech`, the 2 s `setTimeout` before a redirect and races between overlapping location attempts are not modelled. A delayed `router.push` is recorded as if immediate.
- The effect that re-runs `handleGetLocation` when `searchDistance` changes is not modelled. `HandleGetLocation` is the body that effect runs.
- Toasts and console output are not modelled.
- `SearchPage.Page.HandleGetLocation` sets `error` on three paths (no geolocation, no precise location, permission denied). The model keeps these assignments. `handleSearch` then clears `error` in the same run, so `error` ends as the search left it.
- `Text.ToLower` maps only ASCII and Latin-1 letters: the full Unicode case mapping of `toLowerCase` is not modelled.
- Leaflet icons, popups, tile URLs and the bounds padding are not modelled. A layer is its identity and what it draws.
- The `details` field of `ApiError` is not modelled.
- `data.message` of an error response is assumed to be a string or missing. Other JSON values are not modelled.
- A developer's `id` may be a string or a number in the source; the model keeps it as an optional string, so a numeric id 0 (falsy) is not modelled.
- A loaded profile without a `techs` field is not modelled: `Developer.techs` is always a list.
- Rendering, `getLocationIcon`, `checkGPSCapability`, `diagnosticGeolocation` and the NextAuth configuration are not modelled.
