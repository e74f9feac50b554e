/**
 * The register page (`RegisterPage`): it checks whether the signed-in user
 * already has a profile, takes a GPS position (or the fixed default when GPS
 * fails), and registers the developer after a fixed sequence of checks, with
 * a GitHub username taken from the session.
 */
module RegisterPage {
  import opened Js
  import opened Text
  import opened Geo
  import opened Techs
  import opened Api
  import opened Auth

  const RegisterFailedFallbackMessage := "Houve um erro ao criar seu perfil. Tente novamente."
  const AlreadyExistsFragment := "já existe"

  // ---------------------------------------------------------------------
  // GitHub username
  // ---------------------------------------------------------------------

  /** `email?.split("@")[0]`: the text before the first "@"; `None` without an email. */
  function EmailLocalPart(email: Option<string>): (r: Option<string>)
    ensures email.None? <==> r.None?
    ensures r.Some? ==>
      StartsWith(email.value, r.value) && '@' !in r.value
      && (|r.value| < |email.value| ==> email.value[|r.value|] == '@')
  {
    match email
    case None => None
    case Some(e) =>
      SplitFirstPiece(e, '@');
      Some(Split(e, '@')[0])
  }

  /**
   * `username || email?.split("@")[0] || name || ""`: the first truthy
   * candidate among the session username, the text before the "@" of the
   * email and the display name; "" when none is.
   */
  function GithubUsername(user: User): (r: string)
    ensures Truthy(user.username) ==> r == user.username.value
    ensures !Truthy(user.username) && Truthy(EmailLocalPart(user.email)) ==> r == EmailLocalPart(user.email).value
    ensures !Truthy(user.username) && !Truthy(EmailLocalPart(user.email)) ==> r == Or(user.name, "")
    ensures r == "" <==> !Truthy(user.username) && !Truthy(EmailLocalPart(user.email)) && !Truthy(user.name)
  {
    Or(user.username, Or(EmailLocalPart(user.email), Or(user.name, "")))
  }

  /** An email without "@" is used whole when there is no username. */
  lemma GithubUsernameWholeEmail(user: User)
    requires !Truthy(user.username) && Truthy(user.email) && '@' !in user.email.value
    ensures GithubUsername(user) == user.email.value
  {
    SplitNoSeparator(user.email.value, '@');
  }

  /** An email starting with "@" gives an empty local part, so the display name is used. */
  lemma GithubUsernameSkipsEmptyLocalPart(user: User, domain: string)
    requires !Truthy(user.username) && user.email == Some("@" + domain)
    ensures GithubUsername(user) == Or(user.name, "")
  {
    var e := "@" + domain;
    assert e == [] + ['@'] + domain;
    SplitAfterPiece([], '@', domain);
  }

  // ---------------------------------------------------------------------
  // Location
  // ---------------------------------------------------------------------

  /**
   * The location after `handleGetLocation`: a GPS fix is stored, any GPS
   * error stores the default; without geolocation the location is left as
   * it was.
   */
  function RegisterLocation(geolocationSupported: bool, gps: GpsOutcome, current: Option<Coord>): (r: Option<Coord>)
    ensures !geolocationSupported ==> r == current
    ensures geolocationSupported && gps.Fix? ==> r == Some(gps.coord)
    ensures geolocationSupported && gps.PositionError? ==> r == Some(DefaultLocation)
  {
    if !geolocationSupported then current
    else match gps
      case Fix(c) => Some(c)
      case PositionError(_) => Some(DefaultLocation)
  }

  /** With geolocation a location is always stored, whatever the error code. */
  lemma RegisterLocationAlwaysSet(gps: GpsOutcome, current: Option<Coord>)
    ensures RegisterLocation(true, gps, current).Some?
    ensures gps.PositionError? ==> RegisterLocation(true, gps, current) == RegisterLocation(true, PositionError(PERMISSION_DENIED), None)
  {
  }

  // ---------------------------------------------------------------------
  // Submission checks
  // ---------------------------------------------------------------------

  /** Why `handleSubmit` stops before sending anything. */
  datatype Rejection = NotSignedIn | BlankTechs | MissingLocation | NoValidTechs

  /**
   * The checks of `handleSubmit`, in order: a session user, a non-blank
   * techs text, a location, at least one technology after `processTechs`.
   * The first that fails decides; otherwise the request carries the
   * fallback GitHub username, the processed technologies and the location.
   */
  function ValidateRegistration(session: Option<Session>, techs: string, location: Option<Coord>)
    : (r: Result<DeveloperRequest, Rejection>)
    ensures r == Err(NotSignedIn) <==> !SignedIn(session)
    ensures r == Err(BlankTechs) <==> SignedIn(session) && AllWhitespace(techs)
    ensures r == Err(MissingLocation) <==> SignedIn(session) && !AllWhitespace(techs) && location.None?
    ensures r == Err(NoValidTechs) <==>
      SignedIn(session) && !AllWhitespace(techs) && location.Some? && ProcessTechs(techs) == []
    ensures r.Ok? ==>
      r.value == DeveloperRequest(GithubUsername(session.value.user.value), ProcessTechs(techs),
                                  location.value.latitude, location.value.longitude)
      && |r.value.techs| > 0
  {
    TrimEmptyIff(techs);
    if !SignedIn(session) then Err(NotSignedIn)
    else if Trim(techs) == "" then Err(BlankTechs)
    else if location.None? then Err(MissingLocation)
    else if ProcessTechs(techs) == [] then Err(NoValidTechs)
    else
      Ok(DeveloperRequest(GithubUsername(session.value.user.value), ProcessTechs(techs),
                          location.value.latitude, location.value.longitude))
  }

  /** The technologies sent are exactly the non-empty trimmed comma-separated pieces, none of them blank. */
  lemma RegistrationTechsWellFormed(session: Option<Session>, techs: string, location: Option<Coord>)
    requires ValidateRegistration(session, techs, location).Ok?
    ensures var ts := ValidateRegistration(session, techs, location).value.techs;
      |ts| > 0 && WellFormedTechs(ts)
  {
  }

  /**
   * `message.includes("já existe")`, stated by position so that the
   * verifier never evaluates the recursive `Contains` on constant messages.
   */
  predicate MentionsAlreadyExists(message: string) {
    exists i :: 0 <= i <= |message| && OccursAt(message, AlreadyExistsFragment, i)
  }

  /** The positional test is JavaScript's `includes`. */
  lemma MentionsAlreadyExistsIsIncludes(message: string)
    ensures MentionsAlreadyExists(message) <==> Contains(message, AlreadyExistsFragment)
  {
    ContainsIff(message, AlreadyExistsFragment);
  }

  /**
   * A failed registration sends the user to the profile page when the status
   * is 409 or the message mentions that the developer already exists.
   */
  predicate RedirectsToProfile(e: ApiError) {
    e.status == 409 || MentionsAlreadyExists(e.message)
  }

  /** The outcome of `handleSubmit`, as the page reports it. */
  datatype SubmitOutcome =
    | Rejected(reason: Rejection)
    | Registered(developer: Developer)
    | RegisterFailed(message: string, redirected: bool)

  /** The message of the toast for a failed registration. */
  function RegisterFailureMessage(e: ApiError): (m: string)
    ensures e.message != "" ==> m == e.message
    ensures m != ""
  {
    if e.message != "" then e.message else RegisterFailedFallbackMessage
  }

  /** The state hooks of the page, and the navigations it scheduled. */
  class Page {
    var loading: bool
    var checkingExistingProfile: bool
    var existingProfile: bool
    var techs: string
    var location: Option<Coord>
    var locationLoading: bool
    /** Paths passed to `router.push`, oldest first (delayed ones included). */
    var navigations: seq<string>
    /** Every registration request sent, oldest first. */
    var sentRequests: seq<DeveloperRequest>

    constructor()
      ensures !loading && !checkingExistingProfile && !existingProfile && techs == "" && location.None?
      ensures !locationLoading && navigations == [] && sentRequests == []
    {
      loading := false;
      checkingExistingProfile := false;
      existingProfile := false;
      techs := "";
      location := None;
      locationLoading := false;
      navigations := [];
      sentRequests := [];
    }

    /** The session effect: an unauthenticated visitor is sent to the login page. */
    method SessionStatusEffect(status: Status)
      modifies this
      ensures navigations == old(navigations) + (if status == Unauthenticated then ["/login"] else [])
      ensures techs == old(techs) && location == old(location) && existingProfile == old(existingProfile)
      ensures sentRequests == old(sentRequests) && loading == old(loading)
      ensures checkingExistingProfile == old(checkingExistingProfile) && locationLoading == old(locationLoading)
    {
      if status == Unauthenticated {
        navigations := navigations + ["/login"];
      }
    }

    /**
     * `checkExistingProfile`: nothing without a username. A found profile
     * sets `existingProfile` and schedules the profile page; a 404 clears
     * it; any other error leaves it as it was.
     */
    method CheckExistingProfile(session: Option<Session>, backend: string -> Result<Developer, Failure>)
      modifies this
      ensures !Truthy(Username(session)) ==> unchanged(this)
      ensures Truthy(Username(session)) ==>
        var reply := backend(Username(session).value);
        !checkingExistingProfile
        && techs == old(techs) && location == old(location) && sentRequests == old(sentRequests)
        && loading == old(loading) && locationLoading == old(locationLoading)
        && (reply.Ok? ==> existingProfile && navigations == old(navigations) + ["/profile"])
        && (reply.Err? && StatusOf(reply.error) == 404 ==> !existingProfile && navigations == old(navigations))
        && (reply.Err? && StatusOf(reply.error) != 404 ==>
              existingProfile == old(existingProfile) && navigations == old(navigations))
    {
      var username := Username(session);
      if !Truthy(username) {
        return;
      }
      checkingExistingProfile := true;
      var r := GetDeveloperByUsername(username.value, backend);
      if r.Ok? {
        existingProfile := true;
        navigations := navigations + ["/profile"];
      } else if r.error.status == 404 {
        existingProfile := false;
      }
      checkingExistingProfile := false;
    }

    /** `handleGetLocation`: stores `RegisterLocation` and clears the loading flag. */
    method HandleGetLocation(geolocationSupported: bool, gps: GpsOutcome)
      modifies this
      ensures location == RegisterLocation(geolocationSupported, gps, old(location)) && !locationLoading
      ensures techs == old(techs) && existingProfile == old(existingProfile) && navigations == old(navigations)
      ensures sentRequests == old(sentRequests) && loading == old(loading)
      ensures checkingExistingProfile == old(checkingExistingProfile)
    {
      locationLoading := true;
      if geolocationSupported {
        match gps {
          case Fix(c) =>
            location := Some(c);
            locationLoading := false;
          case PositionError(_) =>
            location := Some(DefaultLocation);
            locationLoading := false;
        }
      } else {
        locationLoading := false;
      }
    }

    /**
     * `handleSubmit`: the checks run in order and the first failure stops
     * everything; otherwise exactly one registration is sent. Success goes
     * to the profile page; a failure does too when it says the developer is
     * already registered.
     */
    method HandleSubmit(session: Option<Session>, backend: DeveloperRequest -> Result<Developer, Failure>)
      returns (outcome: SubmitOutcome)
      modifies this
      ensures var v := ValidateRegistration(session, old(techs), old(location));
        (v.Err? <==> outcome.Rejected?)
        && (v.Err? ==> outcome.reason == v.error && unchanged(this))
        && (v.Ok? ==>
              sentRequests == old(sentRequests) + [v.value] && !loading
              && techs == old(techs) && location == old(location) && existingProfile == old(existingProfile)
              && checkingExistingProfile == old(checkingExistingProfile) && locationLoading == old(locationLoading)
              && (backend(v.value).Ok? ==>
                    outcome == Registered(backend(v.value).value) && navigations == old(navigations) + ["/profile"])
              && (backend(v.value).Err? ==>
                    outcome.RegisterFailed? && outcome.message != ""
                    && outcome.message == RegisterFailureMessage(RegisterError(backend(v.value).error))
                    && navigations == old(navigations) + (if outcome.redirected then ["/profile"] else [])
                    && (outcome.redirected <==> RedirectsToProfile(RegisterError(backend(v.value).error)))
                    && (HasStatus(backend(v.value).error, 409) ==> outcome.redirected)))
    {
      TrimEmptyIff(techs);
      if !SignedIn(session) {
        return Rejected(NotSignedIn);
      }
      if Trim(techs) == "" {
        return Rejected(BlankTechs);
      }
      if location.None? {
        return Rejected(MissingLocation);
      }
      var techsArray := ProcessTechs(techs);
      if |techsArray| == 0 {
        return Rejected(NoValidTechs);
      }
      var developerRequest := DeveloperRequest(GithubUsername(session.value.user.value), techsArray,
                                               location.value.latitude, location.value.longitude);
      assert ValidateRegistration(session, techs, location) == Ok(developerRequest);
      outcome := Register(developerRequest, backend);
    }

    /** The part of `handleSubmit` after the checks: send the request and react to the reply. */
    method Register(request: DeveloperRequest, backend: DeveloperRequest -> Result<Developer, Failure>)
      returns (outcome: SubmitOutcome)
      modifies this
      ensures sentRequests == old(sentRequests) + [request] && !loading && !outcome.Rejected?
      ensures techs == old(techs) && location == old(location) && existingProfile == old(existingProfile)
      ensures checkingExistingProfile == old(checkingExistingProfile) && locationLoading == old(locationLoading)
      ensures backend(request).Ok? ==>
        outcome == Registered(backend(request).value) && navigations == old(navigations) + ["/profile"]
      ensures backend(request).Err? ==>
        outcome.RegisterFailed? && outcome.message != ""
        && outcome.message == RegisterFailureMessage(RegisterError(backend(request).error))
        && navigations == old(navigations) + (if outcome.redirected then ["/profile"] else [])
        && (outcome.redirected <==> StatusOf(backend(request).error) == 409 || MentionsAlreadyExists(outcome.message))
        && (HasStatus(backend(request).error, 409) ==> outcome.redirected)
    {
      loading := true;
      sentRequests := sentRequests + [request];
      var r := RegisterDeveloper(request, backend);
      if r.Ok? {
        navigations := navigations + ["/profile"];
        outcome := Registered(r.value);
      } else {
        var redirect := RedirectsToProfile(r.error);
        if redirect {
          navigations := navigations + ["/profile"];
        }
        outcome := RegisterFailed(RegisterFailureMessage(r.error), redirect);
      }
      loading := false;
    }
  }
}
