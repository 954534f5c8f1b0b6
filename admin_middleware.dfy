/** The server middleware guarding the administration site: which requests
    are passed to the next handler and which are refused. */
module AdminMiddleware {

  const ADMIN_PREFIX: string := "/admin/"
  const ADMIN_LOGIN: string := "/admin/login/"
  const FORBIDDEN_MESSAGE: string := "Vous n'avez pas les droits d'accès à l'administration"

  /** The outcome of `request.user.userprofile`: the attribute lookup can
      raise, which the middleware swallows. */
  datatype ProfileLookup = LookupFails | Profile(role: string)

  /** The parts of a request the middleware reads. */
  datatype Request = Request(path: string, isAuthenticated: bool, isSuperuser: bool, profile: ProfileLookup)

  /** `self.get_response(request)`, or the 403 response with its text. */
  datatype Decision = PassThrough | Forbidden(message: string)

  predicate StartsWith(s: string, prefix: string) {
    |prefix| <= |s| && s[..|prefix|] == prefix
  }

  /** `__call__`: the chain of checks in source order. The first test reads
      `path == '/admin/login/' or (path == '/admin/' and not authenticated)`,
      as Python binds `and` tighter than `or`. */
  function Decide(req: Request): (d: Decision)
    ensures d.Forbidden? <==>
      && StartsWith(req.path, ADMIN_PREFIX)
      && req.path != ADMIN_LOGIN
      && req.isAuthenticated
      && !req.isSuperuser
      && req.profile != Profile("admin")
    ensures d.Forbidden? ==> d.message == FORBIDDEN_MESSAGE
  {
    if StartsWith(req.path, ADMIN_PREFIX) then
      if req.path == ADMIN_LOGIN || (req.path == ADMIN_PREFIX && !req.isAuthenticated) then PassThrough
      else if !req.isAuthenticated then PassThrough
      else if req.isSuperuser then PassThrough
      else if req.profile.Profile? && req.profile.role == "admin" then PassThrough
      else Forbidden(FORBIDDEN_MESSAGE)
    else PassThrough
  }

  /** Anything outside the administration site is passed through. */
  lemma OutsideAdminPasses(req: Request)
    requires !StartsWith(req.path, ADMIN_PREFIX)
    ensures Decide(req) == PassThrough
  {
  }

  /** The login page and every unauthenticated request are passed through
      (the latter to be redirected to the login page by the framework). */
  lemma LoginAndAnonymousPass(req: Request)
    requires req.path == ADMIN_LOGIN || !req.isAuthenticated
    ensures Decide(req) == PassThrough
  {
  }

  /** An authenticated request to an administration page passes exactly
      when the user is a superuser or has the `admin` profile role; a failed
      profile lookup counts as no role. */
  lemma AuthenticatedAdminAccess(req: Request)
    requires req.isAuthenticated && StartsWith(req.path, ADMIN_PREFIX) && req.path != ADMIN_LOGIN
    ensures Decide(req) == PassThrough <==> req.isSuperuser || req.profile == Profile("admin")
    ensures req.profile == LookupFails && !req.isSuperuser ==> Decide(req) == Forbidden(FORBIDDEN_MESSAGE)
  {
  }

  /** The site root itself is refused to an authenticated plain user: the
      `not authenticated` test applies to `/admin/` only. */
  lemma AdminRootForAuthenticatedListener()
    ensures Decide(Request(ADMIN_PREFIX, true, false, Profile("listener"))) == Forbidden(FORBIDDEN_MESSAGE)
  {
  }
}
