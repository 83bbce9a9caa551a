/** The router's route table and its `beforeEach` guard. */
module Router {
  import opened Common

  const AUTH_PATH: string := "/auth"
  const HOME_PATH: string := "/"

  datatype Route = Route(path: string, requiresAuth: bool)

  /** The route table: the sign-in view is public, the main view is not. */
  const ROUTES: seq<Route> := [Route(AUTH_PATH, false), Route(HOME_PATH, true)]

  /** What the guard tells the router: `next()` or `next(path)`. */
  datatype Navigation = Proceed | RedirectTo(path: string)

  /** `to.meta.requiresAuth` for a path: the flag of the first route of the
      table with that path; false for a path no route matches. */
  function RequiresAuth(routes: seq<Route>, path: string): (b: bool)
    ensures b ==> exists i :: 0 <= i < |routes| && routes[i].path == path && routes[i].requiresAuth
    ensures (forall i :: 0 <= i < |routes| ==> routes[i].path != path) ==> !b
  {
    if routes == [] then false
    else if routes[0].path == path then routes[0].requiresAuth
    else RequiresAuth(routes[1..], path)
  }

  /** The `beforeEach` guard, given the auth store's token. */
  function BeforeEach(to: string, token: Option<string>): (d: Navigation)
    ensures d == RedirectTo(AUTH_PATH) <==> RequiresAuth(ROUTES, to) && !Truthy(token)
    ensures d == Proceed <==> !RequiresAuth(ROUTES, to) || Truthy(token)
  {
    if RequiresAuth(ROUTES, to) && !Truthy(token) then RedirectTo(AUTH_PATH) else Proceed
  }

  /** The main view is guarded and the sign-in view is not. */
  lemma RouteFlags()
    ensures RequiresAuth(ROUTES, HOME_PATH) && !RequiresAuth(ROUTES, AUTH_PATH)
  {
  }

  /** Whatever the token, navigating to the redirect target proceeds, so a
      redirect never leads to a second redirect. */
  lemma RedirectTargetIsOpen(from: string, token: Option<string>)
    ensures BeforeEach(from, token).RedirectTo? ==> BeforeEach(BeforeEach(from, token).path, token) == Proceed
  {
    RouteFlags();
  }
}
