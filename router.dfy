/** The client router: its route table and the navigation guard that sends
    unauthenticated visitors of protected pages back to the home page. */
module Router {

  import opened Sequences
  import Auth

  /** A route record: its path, its name and its `meta.requiresAuth` flag. */
  datatype RouteRecord = RouteRecord(path: string, name: string, requiresAuth: bool)

  const ROUTES: seq<RouteRecord> := [
    RouteRecord("/", "home", false),
    RouteRecord("/map", "map", true)
  ]

  /** A target location: a path and its query parameters. */
  datatype Location = Location(path: string, query: map<string, string>)

  /** The single `next` call a guard makes: `next()` or `next(location)`. */
  datatype NextCall = Proceed | Redirect(to: Location)

  const LOGIN_REDIRECT: Location := Location("/", map["authRequired" := "true"])

  function HasPath(path: string): RouteRecord -> bool {
    (r: RouteRecord) => r.path == path
  }

  /** The records a path matches (the table holds only exact paths). */
  function Matched(path: string): (matched: seq<RouteRecord>)
    ensures forall r :: r in matched <==> r in ROUTES && r.path == path
  {
    FilterKeeps(ROUTES, HasPath(path));
    Filter(ROUTES, HasPath(path))
  }

  /** `to.matched.some((record) => record.meta.requiresAuth)`. */
  function SomeRequiresAuth(matched: seq<RouteRecord>): (b: bool)
    ensures b <==> exists i :: 0 <= i < |matched| && matched[i].requiresAuth
  {
    if |matched| == 0 then false
    else if matched[0].requiresAuth then true
    else
      assert forall i :: 1 <= i < |matched| ==> matched[i] == matched[1..][i - 1];
      SomeRequiresAuth(matched[1..])
  }

  /** `beforeEach`: one `next` call, chosen from the matched records and
      the session held in `storage`. */
  function BeforeEach(matched: seq<RouteRecord>, storage: Auth.Storage): (call: NextCall)
    ensures call.Redirect? <==> SomeRequiresAuth(matched) && !Auth.IsAuthenticatedIn(storage)
    ensures call.Redirect? ==> call.to == LOGIN_REDIRECT
  {
    if SomeRequiresAuth(matched) then
      if !Auth.IsAuthenticatedIn(storage) then Redirect(LOGIN_REDIRECT) else Proceed
    else Proceed
  }

  /** The home page needs no session and the map page does. */
  lemma RouteTable()
    ensures Matched("/") == [RouteRecord("/", "home", false)]
    ensures Matched("/map") == [RouteRecord("/map", "map", true)]
    ensures !SomeRequiresAuth(Matched("/")) && SomeRequiresAuth(Matched("/map"))
  {
    FilterCons(ROUTES[0], ROUTES[1..], HasPath("/"));
    FilterCons(ROUTES[0], ROUTES[1..], HasPath("/map"));
    FilterSingleton(ROUTES[1], HasPath("/"));
    FilterSingleton(ROUTES[1], HasPath("/map"));
    assert ROUTES == [ROUTES[0]] + ROUTES[1..];
    assert ROUTES[1..] == [ROUTES[1]];
  }

  /** The home page is always reached; the map page is reached only with a
      session, and after logging out its visitor is sent home. */
  lemma GuardOnRoutes(storage: Auth.Storage)
    ensures BeforeEach(Matched("/"), storage) == Proceed
    ensures BeforeEach(Matched("/map"), storage) == Proceed <==> Auth.IsAuthenticatedIn(storage)
    ensures BeforeEach(Matched("/map"), Auth.AfterLogout(storage)) == Redirect(LOGIN_REDIRECT)
  {
    RouteTable();
    Auth.LogoutThenQuery(storage);
  }

  /** Right after a login is stored the map page is reached. */
  lemma MapAfterLogin(storage: Auth.Storage, tokens: Auth.Tokens, user: Auth.UserProfile)
    ensures BeforeEach(Matched("/map"), Auth.AfterStore(storage, tokens, user)) == Proceed
  {
    RouteTable();
    Auth.StoreThenQuery(storage, tokens, user);
  }
}
