/**
 * front-end/src/middleware.ts: which paths are protected, and the decision the
 * Next.js middleware takes for a request path given the outcome of the user lookup.
 */
module RouteGuard {
  import opened Wrappers
  import opened Strings
  import Js

  /** The `protectedRoutes` array; an entry with `*` is a wildcard route. */
  const ProtectedRoutes: seq<string> := ["/dashboard", "/dashboard/*"]

  /** The base of a wildcard route: the route with its first slash-star removed. */
  function WildcardBase(route: string): string {
    ReplaceFirst(route, "/*", "")
  }

  /** The callback given to `some`: exact match, or base / base-slash-prefix match for a wildcard. */
  predicate RouteMatches(route: string, path: string) {
    if !Contains(route, "*") then path == route
    else
      var base := WildcardBase(route);
      path == base || base + "/" <= path
  }

  /** `routes.some(route => RouteMatches(route, path))`. */
  predicate SomeRouteMatches(routes: seq<string>, path: string)
    decreases |routes|
  {
    |routes| > 0 && (RouteMatches(routes[0], path) || SomeRouteMatches(routes[1..], path))
  }

  /** `isProtectedRoute(path)`. */
  predicate IsProtectedRoute(path: string) {
    if path == "" || |ProtectedRoutes| == 0 then false
    else SomeRouteMatches(ProtectedRoutes, path)
  }

  /** `some` holds exactly when one of the entries matches. */
  lemma {:induction false} SomeRouteMatchesIff(routes: seq<string>, path: string)
    ensures SomeRouteMatches(routes, path) <==> exists i :: 0 <= i < |routes| && RouteMatches(routes[i], path)
    decreases |routes|
  {
    if |routes| > 0 {
      SomeRouteMatchesIff(routes[1..], path);
      if SomeRouteMatches(routes[1..], path) {
        var i :| 0 <= i < |routes| - 1 && RouteMatches(routes[1..][i], path);
        assert RouteMatches(routes[i + 1], path);
      }
      if exists i :: 0 <= i < |routes| && RouteMatches(routes[i], path) {
        var i :| 0 <= i < |routes| && RouteMatches(routes[i], path);
        if i > 0 {
          assert RouteMatches(routes[1..][i - 1], path);
        }
      }
    }
  }

  /** The first slash-star of `a` followed by a slash-star is the final one when `a` holds no star. */
  lemma FirstWildcard(a: string)
    requires '*' !in a
    ensures IndexOf(a + "/*", "/*") == Some(|a|)
  {
    var s := a + "/*";
    assert OccursAt(s, "/*", |a|);
    forall j | 0 <= j < |a| ensures !OccursAt(s, "/*", j) {
      if j + 1 < |a| {
        assert s[j + 1] == a[j + 1];
      } else {
        assert s[j + 1] == '/';
      }
    }
  }

  /** The wildcard entry's base is "/dashboard". */
  lemma DashboardWildcardBase()
    ensures Contains("/dashboard/*", "*")
    ensures !Contains("/dashboard", "*")
    ensures WildcardBase("/dashboard/*") == "/dashboard"
  {
    DashboardRouteHasStar();
    NotContainsChar("/dashboard", '*');
    DashboardBase();
  }

  /** The wildcard entry holds a star, at index 11. */
  lemma DashboardRouteHasStar()
    ensures Contains("/dashboard/*", "*")
  {
    var route := "/dashboard/*";
    assert route[11..12] == "*";
    assert OccursAt(route, "*", 11);
  }

  /** Removing the first slash-star of the wildcard entry leaves "/dashboard". */
  lemma DashboardBase()
    ensures WildcardBase("/dashboard/*") == "/dashboard"
  {
    var route := "/dashboard/*";
    FirstWildcard("/dashboard");
    assert "/dashboard" + "/*" == route;
    assert route[..10] == "/dashboard" && route[12..] == "";
  }

  /**
   * A path is protected iff some entry of `protectedRoutes` matches it, i.e. iff it is
   * "/dashboard" or starts with "/dashboard/"; in particular "" and "/dashboardX" are not.
   */
  lemma ProtectedIff(path: string)
    ensures IsProtectedRoute(path) <==>
      path != "" && exists i :: 0 <= i < |ProtectedRoutes| && RouteMatches(ProtectedRoutes[i], path)
    ensures IsProtectedRoute(path) <==> path == "/dashboard" || "/dashboard/" <= path
  {
    SomeRouteMatchesIff(ProtectedRoutes, path);
    DashboardWildcardBase();
    assert RouteMatches(ProtectedRoutes[0], path) <==> path == "/dashboard";
    assert RouteMatches(ProtectedRoutes[1], path) <==> path == "/dashboard" || "/dashboard/" <= path;
  }

  /** "/dashboardX" with X not a slash is not protected. */
  lemma NoBareSuffixMatch(path: string)
    requires "/dashboard" <= path && |path| > 10 && path[10] != '/'
    ensures !IsProtectedRoute(path)
  {
    ProtectedIff(path);
    assert "/dashboard/"[10] == '/';
  }

  /** The outcome of `getUserMeAction()`: a thrown error, or a response envelope. */
  datatype UserLookup = LookupThrew(error: Js.Thrown) | LookupReturned(success: bool, data: Option<Js.Json>)

  /** `NextResponse.next()` or a redirect to a path of the request's origin. */
  datatype Response = PassThrough | Redirect(location: string)

  /** The middleware's response, and whether it performed the user lookup. */
  datatype GuardResult = GuardResult(response: Response, lookedUp: bool)

  /** `middleware(request)` for a request with path `path`; `lookup` is what the user lookup would give. */
  function Middleware(path: string, lookup: UserLookup): (g: GuardResult)
    ensures !IsProtectedRoute(path) ==> g == GuardResult(PassThrough, false)
    ensures IsProtectedRoute(path) ==> g.lookedUp
    ensures IsProtectedRoute(path) ==>
      (g.response == PassThrough <==> lookup.LookupReturned? && lookup.success && Js.TruthyOpt(lookup.data))
    ensures g.response.Redirect? ==> g.response.location == "/signin"
  {
    if !IsProtectedRoute(path) then GuardResult(PassThrough, false)
    else
      match lookup
      case LookupThrew(_) => GuardResult(Redirect("/signin"), true)
      case LookupReturned(success, data) =>
        if !success || !Js.TruthyOpt(data) then GuardResult(Redirect("/signin"), true)
        else GuardResult(PassThrough, true)
  }
}
