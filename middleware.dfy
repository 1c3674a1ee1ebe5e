/**
 * `ProfileCompletionMiddleware` of `accounts/middleware.py`: a signed-in user whose
 * profile has no location is sent to the profile set-up page, except on that page
 * and on the logout page; every other request goes on to the next handler.
 */
module ProfileMiddleware {
  import opened Http

  /** `reverse('setup_profile')` and `reverse('logout')`, from `accounts/urls.py` mounted under `/accounts/`. */
  const SetupProfilePath: string := "/accounts/profile/setup/"
  const LogoutPath: string := "/accounts/logout/"

  /** The paths an incomplete profile may still visit. */
  const AllowedPaths: seq<string> := [SetupProfilePath, LogoutPath]

  /** `request.user`: anonymous, or signed in with the `location` of their profile. */
  datatype User = Anonymous | SignedIn(location: string)

  datatype Request = Request(user: User, path: string)

  datatype Decision = RedirectToSetup | PassThrough

  /** The nested test of `__call__`: `is_authenticated`, then `not profile.location`, then the path. */
  function Decide(request: Request): Decision
  {
    if request.user.SignedIn? then
      if request.user.location == "" then
        if request.path !in AllowedPaths then RedirectToSetup else PassThrough
      else PassThrough
    else PassThrough
  }

  /** `__call__`: either `redirect('setup_profile')`, or whatever `get_response(request)` returns. */
  function Call(getResponse: Request -> Response, request: Request): Response
  {
    match Decide(request)
    case RedirectToSetup => Redirect("setup_profile")
    case PassThrough => getResponse(request)
  }

  /** An anonymous request always goes on to the next handler, untouched. */
  lemma AnonymousPassesThrough(getResponse: Request -> Response, request: Request)
    requires request.user.Anonymous?
    ensures Call(getResponse, request) == getResponse(request)
  {
  }

  /** A signed-in user whose profile has a location always goes on. */
  lemma CompleteProfilePassesThrough(getResponse: Request -> Response, request: Request)
    requires request.user.SignedIn? && request.user.location != ""
    ensures Call(getResponse, request) == getResponse(request)
  {
  }

  /** An incomplete profile may still reach the set-up page and the logout page. */
  lemma AllowedPathPassesThrough(getResponse: Request -> Response, location: string, path: string)
    requires path == SetupProfilePath || path == LogoutPath
    ensures Call(getResponse, Request(SignedIn(location), path)) == getResponse(Request(SignedIn(location), path))
  {
  }

  /**
   * An incomplete profile on any other path is redirected to the set-up page, and the
   * next handler is not consulted: the response is the same whatever it would return.
   */
  lemma IncompleteProfileRedirects(getResponse: Request -> Response, other: Request -> Response, path: string)
    requires path != SetupProfilePath && path != LogoutPath
    ensures Call(getResponse, Request(SignedIn(""), path)) == Redirect("setup_profile")
    ensures Call(getResponse, Request(SignedIn(""), path)) == Call(other, Request(SignedIn(""), path))
  {
  }

  /** The redirect happens exactly for a signed-in user with no location, off the two allowed paths. */
  lemma RedirectIff(request: Request)
    ensures Decide(request) == RedirectToSetup <==>
      request.user.SignedIn? && request.user.location == ""
      && request.path != SetupProfilePath && request.path != LogoutPath
  {
  }

  /** When the request is not redirected, the response is exactly the next handler's. */
  lemma PassThroughIsDownstream(getResponse: Request -> Response, request: Request)
    requires Decide(request) == PassThrough
    ensures Call(getResponse, request) == getResponse(request)
  {
  }
}
