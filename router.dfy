/** The route table and the `beforeEach` navigation guard. The guard asks the
    identity service for the current session (an input here) and decides,
    from the destination's `requiresAuth` flag and whether a session exists,
    to allow the navigation or redirect it. */
module Router {
  import opened AuthTypes

  /** A route record: its path, the path it redirects to (the `/` entry),
      and `meta.requiresAuth` when the record has one. */
  datatype Route = Route(path: string, redirect: Option<string>, requiresAuth: Option<bool>)

  /** What the guard passes to `next`: nothing, or a path to go to instead. */
  datatype Decision = Allow | RedirectTo(path: string)

  const LoginPath: string := "/login"
  const LandingPath: string := "/dashboard"

  const Routes: seq<Route> := [
    Route("/", Some(LoginPath), None),
    Route(LoginPath, None, Some(false)),
    Route("/register", None, Some(false)),
    Route("/forgot-password", None, Some(false)),
    Route("/reset-password", None, Some(false)),
    Route(LandingPath, None, Some(true)),
    Route("/profile", None, Some(true))
  ]

  /** The first record of `routes` whose path is `path`, if any. */
  function FindRoute(routes: seq<Route>, path: string): (found: Option<Route>)
    ensures found.Some? ==> found.value in routes && found.value.path == path
    ensures found.None? <==> forall i :: 0 <= i < |routes| ==> routes[i].path != path
  {
    if routes == [] then None
    else if routes[0].path == path then Some(routes[0])
    else FindRoute(routes[1..], path)
  }

  /** `to.meta.requiresAuth`: absent for a record without meta and for a
      path no record matches (whose `meta` is empty). */
  function RequiresAuthOf(path: string): (flag: Option<bool>)
    ensures flag.Some? ==> exists r :: r in Routes && r.path == path && r.requiresAuth == flag
    ensures (forall i :: 0 <= i < |Routes| ==> Routes[i].path != path) ==> flag == None
  {
    match FindRoute(Routes, path)
    case None => None
    case Some(r) => r.requiresAuth
  }

  /** The guard's decision on the destination's flag (taken as JavaScript
      truthiness, so an absent flag counts as false) and session presence. */
  function Decide(requiresAuth: bool, hasSession: bool): (d: Decision)
    ensures d == RedirectTo(LoginPath) <==> requiresAuth && !hasSession
    ensures d == RedirectTo(LandingPath) <==> !requiresAuth && hasSession
    ensures d == Allow <==> requiresAuth == hasSession
  {
    if requiresAuth && !hasSession then RedirectTo(LoginPath)
    else if !requiresAuth && hasSession then RedirectTo(LandingPath)
    else Allow
  }

  /** The guard run for a navigation from `from` to `to`, given the session
      the identity service reports at that moment. */
  function BeforeEach(to: string, from: string, session: Option<Session>): (d: Decision)
    ensures d == RedirectTo(LoginPath) <==> RequiresAuthOf(to) == Some(true) && session.None?
    ensures d == RedirectTo(LandingPath) <==> RequiresAuthOf(to) != Some(true) && session.Some?
    ensures d.RedirectTo? ==> d.path == LoginPath || d.path == LandingPath
  {
    Decide(RequiresAuthOf(to) == Some(true), session.Some?)
  }

  /** The first record with a path is the one `FindRoute` returns. */
  lemma {:induction false} FindRouteFirstMatch(routes: seq<Route>, k: nat, path: string)
    requires k < |routes| && routes[k].path == path
    requires forall j :: 0 <= j < k ==> routes[j].path != path
    ensures FindRoute(routes, path) == Some(routes[k])
  {
    if k > 0 {
      FindRouteFirstMatch(routes[1..], k - 1, path);
    }
  }

  /** The record for `Routes[k].path` is `Routes[k]` itself. */
  lemma LookupEntry(k: nat)
    requires k < |Routes|
    ensures RequiresAuthOf(Routes[k].path) == Routes[k].requiresAuth
  {
    RoutePathsDistinct();
    FindRouteFirstMatch(Routes, k, Routes[k].path);
  }

  /** The flags the route table declares, and the `/` entry's lack of one. */
  lemma RouteTableFlags()
    ensures RequiresAuthOf("/") == None
    ensures RequiresAuthOf(LoginPath) == Some(false)
    ensures RequiresAuthOf("/register") == Some(false)
    ensures RequiresAuthOf("/forgot-password") == Some(false)
    ensures RequiresAuthOf("/reset-password") == Some(false)
    ensures RequiresAuthOf(LandingPath) == Some(true)
    ensures RequiresAuthOf("/profile") == Some(true)
  {
    LookupEntry(0);
    LookupEntry(1);
    LookupEntry(2);
    LookupEntry(3);
    LookupEntry(4);
    LookupEntry(5);
    LookupEntry(6);
  }

  /** No two records share a path, so the first match is the only one. */
  lemma RoutePathsDistinct()
    ensures forall i, j :: 0 <= i < j < |Routes| ==> Routes[i].path != Routes[j].path
  {
    forall i, j | 0 <= i < j < |Routes| ensures Routes[i].path != Routes[j].path {
      assert |Routes[i].path| != |Routes[j].path|;
    }
  }

  /** The `/` entry redirects to a path that is itself in the table. */
  lemma RedirectTargetsAreRoutes()
    ensures FindRoute(Routes, "/").Some? && FindRoute(Routes, "/").value.redirect == Some(LoginPath)
    ensures FindRoute(Routes, LoginPath).Some? && FindRoute(Routes, LandingPath).Some?
  {
    RouteTableFlags();
  }

  /** The decision never looks at where the navigation comes from. */
  lemma GuardIgnoresSource(to: string, from1: string, from2: string, session: Option<Session>)
    ensures BeforeEach(to, from1, session) == BeforeEach(to, from2, session)
  {
  }

  /** Two navigations with the same destination flag and the same session
      presence are decided alike. */
  lemma GuardDependsOnlyOnFlagAndSession(to1: string, s1: Option<Session>, to2: string, s2: Option<Session>, from1: string, from2: string)
    requires (RequiresAuthOf(to1) == Some(true)) == (RequiresAuthOf(to2) == Some(true))
    requires s1.Some? == s2.Some?
    ensures BeforeEach(to1, from1, s1) == BeforeEach(to2, from2, s2)
  {
  }

  /** A destination that declares no flag (`/`, or a path no record
      matches) is public-only: a session holder is sent to the landing page,
      anyone else is let through. */
  lemma UnflaggedDestinationIsPublicOnly(to: string, from: string, session: Option<Session>)
    requires RequiresAuthOf(to) == None
    ensures BeforeEach(to, from, session) == if session.Some? then RedirectTo(LandingPath) else Allow
  {
  }

  /** The `/` entry is decided exactly as its redirect target `/login`, so it
      does not matter whether the guard sees the entry or its target. */
  lemma RootDecidedAsLogin(from: string, session: Option<Session>)
    ensures BeforeEach("/", from, session) == BeforeEach(LoginPath, from, session)
  {
    RouteTableFlags();
  }

  /** A redirect target is allowed by the guard's second pass, for the same
      session: there are no redirect loops. */
  lemma NoRedirectLoop(to: string, from: string, session: Option<Session>)
    requires BeforeEach(to, from, session).RedirectTo?
    ensures BeforeEach(BeforeEach(to, from, session).path, to, session) == Allow
  {
    RouteTableFlags();
  }

  /** A session holder opening the password-reset page lands on the dashboard. */
  lemma SessionHolderLeavesResetPassword(from: string, s: Session)
    ensures BeforeEach("/reset-password", from, Some(s)) == RedirectTo(LandingPath)
  {
    RouteTableFlags();
  }

  /** Without a session, every protected page sends the visitor to `/login`. */
  lemma ProtectedPagesNeedSession(from: string)
    ensures BeforeEach(LandingPath, from, None) == RedirectTo(LoginPath)
    ensures BeforeEach("/profile", from, None) == RedirectTo(LoginPath)
  {
    RouteTableFlags();
  }
}
