/** The application's top-level rendering decision: the loading skeleton, the root
    redirect, the three guarded subtrees with their wildcard fallbacks, the
    unauthorised page and the 404 page. */
module App {
  import opened Wrappers
  import opened Text
  import opened Session
  import CheckAuth

  /** What the application shows for a path. `Page(p)` is the element declared for path
      `p`; `Navigate(t)` is a redirect to `t`; `Crash` is the TypeError thrown while
      rendering, which leaves nothing on the screen. */
  datatype View = Skeleton | Navigate(to: string) | Page(path: string) | Unauthorized | NotFound | Crash

  const AuthPages: set<string> := {"login", "register"}
  const AdminPages: set<string> := {"dashboard", "products", "orders", "features"}
  const ShopPages: set<string> :=
    {"home", "listing", "checkout", "account", "paypal-return", "payment-success", "search"}

  /** A wildcard route under `base` matches `base` itself and everything below `base/`. */
  predicate InSubtree(path: string, base: string)
  {
    path == base || StartsWith(path, base + "/")
  }

  lemma SubtreePrefix(path: string, base: string)
    requires InSubtree(path, base)
    ensures |base| <= |path| && path[..|base|] == base
  {
    if path != base {
      assert path[..|base|] == path[..|base| + 1][..|base|];
    }
  }

  /** The three guarded subtrees never overlap. */
  lemma SubtreesDisjoint(path: string)
    ensures !(InSubtree(path, "/auth") && InSubtree(path, "/admin"))
    ensures !(InSubtree(path, "/auth") && InSubtree(path, "/shop"))
    ensures !(InSubtree(path, "/admin") && InSubtree(path, "/shop"))
  {
    if InSubtree(path, "/auth") { SubtreePrefix(path, "/auth"); assert path[1] == 'a' && path[2] == 'u'; }
    if InSubtree(path, "/admin") { SubtreePrefix(path, "/admin"); assert path[1] == 'a' && path[2] == 'd'; }
    if InSubtree(path, "/shop") { SubtreePrefix(path, "/shop"); assert path[1] == 's'; }
  }

  /** The part of the path a child route under `base` is matched against. */
  function Remainder(path: string, base: string): (rest: string)
    requires InSubtree(path, base)
    ensures path == base ==> rest == ""
    ensures path != base ==> path == base + "/" + rest
  {
    if path == base then "" else path[|base| + 1..]
  }

  /** ASCII lower case; the router compares route paths without regard to case. */
  function LowerChar(c: char): (r: char)
    ensures !('A' <= r <= 'Z')
    ensures !('A' <= c <= 'Z') ==> r == c
  {
    if 'A' <= c <= 'Z' then (c as int + 32) as char else c
  }

  function Lower(s: string): (r: string)
    ensures |r| == |s| && forall i :: 0 <= i < |s| ==> r[i] == LowerChar(s[i])
  {
    seq(|s|, i requires 0 <= i < |s| => LowerChar(s[i]))
  }

  /** A route path also matches with any number of slashes after it. */
  function DropTrailingSlashes(s: string): (r: string)
    ensures r <= s && (|r| == 0 || r[|r| - 1] != '/')
    ensures forall i :: |r| <= i < |s| ==> s[i] == '/'
  {
    if |s| > 0 && s[|s| - 1] == '/' then DropTrailingSlashes(s[..|s| - 1]) else s
  }

  /** The form of a remainder that the router compares with the declared child paths. */
  function RouteKey(rest: string): string
  {
    DropTrailingSlashes(Lower(rest))
  }

  /** Trailing slashes and letter case do not change which child route matches. */
  lemma RouteKeyIgnoresSlashAndCase(rest: string)
    ensures RouteKey(rest + "/") == RouteKey(rest)
    ensures RouteKey(Lower(rest)) == RouteKey(rest)
  {
    assert Lower(rest + "/") == Lower(rest) + "/";
    assert (Lower(rest) + "/")[..|Lower(rest)|] == Lower(rest);
    assert Lower(Lower(rest)) == Lower(rest);
  }

  /** The child routes of a subtree: a declared page, or the `*` route that redirects to
      the subtree's default page. `fallback` is that redirect's relative target resolved
      against the subtree (`"dashboard"` under /admin is /admin/dashboard). */
  function Child(base: string, pages: set<string>, fallback: string, rest: string): (v: View)
    ensures RouteKey(rest) in pages ==> v == Page(base + "/" + RouteKey(rest))
    ensures RouteKey(rest) !in pages ==> v == Navigate(fallback)
  {
    var key := RouteKey(rest);
    if key in pages then Page(base + "/" + key) else Navigate(fallback)
  }

  /** "home/", "Home" and "HOME//" select the same child route as "home". */
  lemma ChildIgnoresSlashAndCase(base: string, pages: set<string>, fallback: string, rest: string)
    ensures Child(base, pages, fallback, rest + "/") == Child(base, pages, fallback, rest)
    ensures Child(base, pages, fallback, Lower(rest)) == Child(base, pages, fallback, rest)
  {
    RouteKeyIgnoresSlashAndCase(rest);
  }

  /** A subtree wrapped in the route guard, given the guard's decision: its redirect wins,
      its crash replaces the whole view, and otherwise the child route is shown. */
  function Guarded(guard: CheckAuth.Outcome, child: View): (v: View)
    ensures guard.Redirect? ==> v == Navigate(guard.to)
    ensures guard.Crash? ==> v == Crash
    ensures guard.Render? ==> v == child
  {
    match guard
    case Redirect(t) => Navigate(t)
    case Crash => Crash
    case Render => child
  }

  /** The element of the root route. Its own loading branch cannot be taken: `Routes`
      returns the skeleton before any route is evaluated. */
  function RootElement(isLoading: bool, isAuthenticated: bool, user: Option<SessionUser>): (v: View)
    ensures isLoading ==> v == Skeleton
    ensures !isLoading && isAuthenticated ==> v == Navigate(CheckAuth.RoleHome(CheckAuth.RoleOf(user)))
    ensures !isLoading && !isAuthenticated ==> v == Navigate(CheckAuth.LoginPath)
  {
    if isLoading then Skeleton
    else if isAuthenticated then Navigate(CheckAuth.RoleHome(CheckAuth.RoleOf(user)))
    else Navigate(CheckAuth.LoginPath)
  }

  /** One guarded subtree with its child routes. */
  function Subtree(guard: CheckAuth.Outcome, path: string, base: string, pages: set<string>,
                   fallback: string): (v: View)
    requires InSubtree(path, base)
    ensures guard.Redirect? ==> v == Navigate(guard.to)
    ensures guard.Crash? <==> v == Crash
    ensures guard.Render? && RouteKey(Remainder(path, base)) !in pages ==> v == Navigate(fallback)
    ensures guard.Render? && RouteKey(Remainder(path, base)) in pages ==>
              v == Page(base + "/" + RouteKey(Remainder(path, base)))
    ensures v.Page? ==> guard.Render?
  {
    Guarded(guard, Child(base, pages, fallback, Remainder(path, base)))
  }

  /** The route table, given what the guard decides for `path`. While loading only the
      skeleton is shown, and the skeleton only then; a page is shown only when the guard
      lets it through, and the view crashes only when the guard does. */
  function Routes(isLoading: bool, isAuthenticated: bool, user: Option<SessionUser>, path: string,
                  guard: CheckAuth.Outcome): (v: View)
    ensures v == Skeleton <==> isLoading
    ensures v.Page? ==> guard.Render?
    ensures v == Crash ==> guard.Crash?
  {
    if isLoading then Skeleton
    else if path == "/" then RootElement(isLoading, isAuthenticated, user)
    else if InSubtree(path, "/auth") then Subtree(guard, path, "/auth", AuthPages, "/auth/login")
    else if InSubtree(path, "/admin") then Subtree(guard, path, "/admin", AdminPages, "/admin/dashboard")
    else if InSubtree(path, "/shop") then Subtree(guard, path, "/shop", ShopPages, "/shop/home")
    else if path == "/unauth-page" then Unauthorized
    else NotFound
  }

  /** The application as written: the subtrees are wrapped in the guard of check-auth.jsx,
      crash at line 30 included. */
  function Render(isLoading: bool, isAuthenticated: bool, user: Option<SessionUser>, path: string): (v: View)
    ensures v == Skeleton <==> isLoading
    ensures v.Page? ==> CheckAuth.Decide(isAuthenticated, user, path).Render?
    ensures v == Crash ==> CheckAuth.Decide(isAuthenticated, user, path).Crash?
  {
    Routes(isLoading, isAuthenticated, user, path, CheckAuth.Decide(isAuthenticated, user, path))
  }

  /** The application with the corrected guard: it never crashes, and it shows what the
      program shows wherever the program does not crash. */
  function RenderSafe(isLoading: bool, isAuthenticated: bool, user: Option<SessionUser>, path: string): (v: View)
    ensures v != Crash
    ensures v == Skeleton <==> isLoading
    ensures v.Page? ==> CheckAuth.DecideSafe(isAuthenticated, user, path).Render?
    ensures !CheckAuth.Decide(isAuthenticated, user, path).Crash? ==> v == Render(isLoading, isAuthenticated, user, path)
  {
    Routes(isLoading, isAuthenticated, user, path, CheckAuth.DecideSafe(isAuthenticated, user, path))
  }

  /** Inside a subtree the route table is that subtree's, whatever the guard decides. */
  lemma RoutesInSubtree(isAuthenticated: bool, user: Option<SessionUser>, path: string, guard: CheckAuth.Outcome)
    ensures InSubtree(path, "/auth") ==>
              Routes(false, isAuthenticated, user, path, guard) == Subtree(guard, path, "/auth", AuthPages, "/auth/login")
    ensures InSubtree(path, "/admin") ==>
              Routes(false, isAuthenticated, user, path, guard) == Subtree(guard, path, "/admin", AdminPages, "/admin/dashboard")
    ensures InSubtree(path, "/shop") ==>
              Routes(false, isAuthenticated, user, path, guard) == Subtree(guard, path, "/shop", ShopPages, "/shop/home")
  {
    SubtreesDisjoint(path);
    if InSubtree(path, "/auth") || InSubtree(path, "/admin") || InSubtree(path, "/shop") {
      assert |path| > 1;
    }
  }

  /** A subtree the guard lets through shows the matched child page or the fallback. */
  lemma LetThrough(isAuthenticated: bool, user: Option<SessionUser>, path: string, guard: CheckAuth.Outcome,
                   base: string, pages: set<string>, fallback: string)
    requires guard.Render? && InSubtree(path, base)
    requires Routes(false, isAuthenticated, user, path, guard) == Subtree(guard, path, base, pages, fallback)
    ensures RouteKey(Remainder(path, base)) !in pages ==>
              Routes(false, isAuthenticated, user, path, guard) == Navigate(fallback)
    ensures RouteKey(Remainder(path, base)) in pages ==>
              Routes(false, isAuthenticated, user, path, guard) == Page(base + "/" + RouteKey(Remainder(path, base)))
  {
  }

  /** The root redirects by role, or to the login page without a session. */
  lemma RootRedirect(isAuthenticated: bool, user: Option<SessionUser>)
    ensures isAuthenticated ==>
              Render(false, isAuthenticated, user, "/")
              == Navigate(if user.Some? && user.value.role == "admin" then "/admin/dashboard" else "/shop/home")
    ensures !isAuthenticated ==> Render(false, isAuthenticated, user, "/") == Navigate("/auth/login")
  {
  }

  /** Every subtree is behind the guard: its redirect wins over the child routes, and its
      crash takes the whole view with it. */
  lemma GuardComesFirst(isAuthenticated: bool, user: Option<SessionUser>, path: string)
    requires InSubtree(path, "/auth") || InSubtree(path, "/admin") || InSubtree(path, "/shop")
    ensures CheckAuth.Decide(isAuthenticated, user, path).Redirect? ==>
              Render(false, isAuthenticated, user, path) == Navigate(CheckAuth.Decide(isAuthenticated, user, path).to)
    ensures CheckAuth.Decide(isAuthenticated, user, path).Crash? <==> Render(false, isAuthenticated, user, path) == Crash
  {
    var guard := CheckAuth.Decide(isAuthenticated, user, path);
    assert Render(false, isAuthenticated, user, path) == Routes(false, isAuthenticated, user, path, guard);
    RoutesInSubtree(isAuthenticated, user, path, guard);
  }

  /** The state that a successful registration leaves crashes the whole application on the
      login page, while the corrected guard sends it to the shop. */
  lemma CrashAfterRegistrationShown()
    ensures Render(false, true, None, "/auth/login") == Crash
    ensures RenderSafe(false, true, None, "/auth/login") == Navigate("/shop/home")
  {
    CheckAuth.CrashAfterRegistration();
    var p := "/auth/login";
    assert InSubtree(p, "/auth") by { assert p == "/auth" + "/" + "login"; }
    GuardComesFirst(true, None, p);
  }

  /** Once the guard lets a subtree through, an unknown sub-path falls back to the
      subtree's default page and a declared one is shown, whatever its case and however
      many slashes follow it. */
  lemma AuthFallback(user: Option<SessionUser>, path: string, isAuthenticated: bool)
    requires InSubtree(path, "/auth") && CheckAuth.Decide(isAuthenticated, user, path).Render?
    ensures RouteKey(Remainder(path, "/auth")) !in AuthPages ==>
              Render(false, isAuthenticated, user, path) == Navigate("/auth/login")
    ensures RouteKey(Remainder(path, "/auth")) in AuthPages ==>
              Render(false, isAuthenticated, user, path) == Page("/auth/" + RouteKey(Remainder(path, "/auth")))
  {
    var guard := CheckAuth.Decide(isAuthenticated, user, path);
    assert Render(false, isAuthenticated, user, path) == Routes(false, isAuthenticated, user, path, guard);
    RoutesInSubtree(isAuthenticated, user, path, guard);
    LetThrough(isAuthenticated, user, path, guard, "/auth", AuthPages, "/auth/login");
  }

  lemma AdminFallback(user: Option<SessionUser>, path: string, isAuthenticated: bool)
    requires InSubtree(path, "/admin") && CheckAuth.Decide(isAuthenticated, user, path).Render?
    ensures RouteKey(Remainder(path, "/admin")) !in AdminPages ==>
              Render(false, isAuthenticated, user, path) == Navigate("/admin/dashboard")
    ensures RouteKey(Remainder(path, "/admin")) in AdminPages ==>
              Render(false, isAuthenticated, user, path) == Page("/admin/" + RouteKey(Remainder(path, "/admin")))
  {
    var guard := CheckAuth.Decide(isAuthenticated, user, path);
    assert Render(false, isAuthenticated, user, path) == Routes(false, isAuthenticated, user, path, guard);
    RoutesInSubtree(isAuthenticated, user, path, guard);
    LetThrough(isAuthenticated, user, path, guard, "/admin", AdminPages, "/admin/dashboard");
  }

  lemma ShopFallback(user: Option<SessionUser>, path: string, isAuthenticated: bool)
    requires InSubtree(path, "/shop") && CheckAuth.Decide(isAuthenticated, user, path).Render?
    ensures RouteKey(Remainder(path, "/shop")) !in ShopPages ==>
              Render(false, isAuthenticated, user, path) == Navigate("/shop/home")
    ensures RouteKey(Remainder(path, "/shop")) in ShopPages ==>
              Render(false, isAuthenticated, user, path) == Page("/shop/" + RouteKey(Remainder(path, "/shop")))
  {
    var guard := CheckAuth.Decide(isAuthenticated, user, path);
    assert Render(false, isAuthenticated, user, path) == Routes(false, isAuthenticated, user, path, guard);
    RoutesInSubtree(isAuthenticated, user, path, guard);
    LetThrough(isAuthenticated, user, path, guard, "/shop", ShopPages, "/shop/home");
  }

  /** Paths that differ from `base` in their second character are outside its subtree. */
  lemma OutsideSubtree(path: string, base: string)
    requires |path| > 1 && |base| > 1 && path[1] != base[1]
    ensures !InSubtree(path, base)
  {
    MismatchNotPrefix(path, base + "/", 1);
  }

  /** The unauthorised page sits outside the guarded subtrees and is shown to anyone. */
  lemma UnauthPageUnguarded(isAuthenticated: bool, user: Option<SessionUser>)
    ensures Render(false, isAuthenticated, user, "/unauth-page") == Unauthorized
  {
    var p := "/unauth-page";
    assert p[1] == 'u';
    OutsideSubtree(p, "/auth");
    OutsideSubtree(p, "/admin");
    OutsideSubtree(p, "/shop");
  }
}
