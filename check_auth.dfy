/** The route guard that wraps the /auth, /admin and /shop subtrees: from the session flags
    and the current pathname it decides whether to redirect or to render the subtree. */
module CheckAuth {
  import opened Wrappers
  import opened Text
  import opened Session

  const LoginPath := "/auth/login"
  const AdminHome := "/admin/dashboard"
  const ShopHome := "/shop/home"
  const UnauthPath := "/unauth-page"

  /** What the guard produces. `Crash` is the TypeError thrown when the code reads
      `role` of a missing user. */
  datatype Outcome = Redirect(to: string) | Render | Crash

  /** `redirectBasedOnRole(user?.role)`; `None` is the role of a missing user. */
  function RoleHome(role: Option<string>): (path: string)
    ensures path == AdminHome <==> role == Some("admin")
    ensures path == AdminHome || path == ShopHome
  {
    if role == Some("admin") then AdminHome else ShopHome
  }

  /** `user?.role`. */
  function RoleOf(user: Option<SessionUser>): (role: Option<string>)
    ensures role.Some? <==> user.Some?
    ensures user.Some? ==> role.value == user.value.role
  {
    match user
    case Some(u) => Some(u.role)
    case None => None
  }

  /** Login and register pages are recognised by containment anywhere in the path. */
  predicate IsAuthPath(path: string)
  {
    Contains(path, "/login") || Contains(path, "/register")
  }

  /** The guard as written. At line 30 the role is read without optional chaining, so an
      authenticated session without a user crashes on a login or register path. */
  function Decide(isAuthenticated: bool, user: Option<SessionUser>, path: string): (r: Outcome)
    // no session: everything except the login/register pages goes to the login page
    ensures (!isAuthenticated || user.None?) && !IsAuthPath(path) ==> r == Redirect(LoginPath)
    ensures !isAuthenticated && IsAuthPath(path) ==> r == Render
    // a session at the root, or on a login/register page, goes to its role's home
    ensures isAuthenticated && user.Some? && path == "/" ==> r == Redirect(RoleHome(RoleOf(user)))
    ensures isAuthenticated && user.Some? && IsAuthPath(path) ==> r == Redirect(RoleHome(RoleOf(user)))
    // the crash happens exactly in the authenticated-without-user case on those pages
    ensures r == Crash <==> isAuthenticated && user.None? && IsAuthPath(path)
    // role-based access: prefix tests on /admin and /shop
    ensures (isAuthenticated && user.Some? && path != "/" && !IsAuthPath(path)
             && user.value.role != "admin" && StartsWith(path, "/admin")) ==> r == Redirect(UnauthPath)
    ensures (isAuthenticated && user.Some? && path != "/" && !IsAuthPath(path)
             && user.value.role == "admin" && StartsWith(path, "/shop")) ==> r == Redirect(AdminHome)
    // the subtree is rendered exactly in these two situations
    ensures r == Render <==>
              (!isAuthenticated && IsAuthPath(path))
              || (isAuthenticated && user.Some? && path != "/" && !IsAuthPath(path)
                  && !(user.value.role != "admin" && StartsWith(path, "/admin"))
                  && !(user.value.role == "admin" && StartsWith(path, "/shop")))
    ensures r.Redirect? ==> r.to in {LoginPath, AdminHome, ShopHome, UnauthPath}
  {
    if (!isAuthenticated || user.None?) && !IsAuthPath(path) then
      Redirect(LoginPath)
    else if path == "/" then
      Redirect(RoleHome(RoleOf(user)))
    else if isAuthenticated && IsAuthPath(path) then
      (match user
       case None => Crash
       case Some(u) => Redirect(RoleHome(Some(u.role))))
    else if isAuthenticated && RoleOf(user) != Some("admin") && StartsWith(path, "/admin") then
      Redirect(UnauthPath)
    else if isAuthenticated && RoleOf(user) == Some("admin") && StartsWith(path, "/shop") then
      Redirect(RoleHome(RoleOf(user)))
    else
      Render
  }

  /** The guard with `user?.role` at line 30, as on lines 21, 35 and 38: it never crashes
      and agrees with the code as written wherever that does not crash. */
  function DecideSafe(isAuthenticated: bool, user: Option<SessionUser>, path: string): (r: Outcome)
    ensures !r.Crash?
    ensures !Decide(isAuthenticated, user, path).Crash? ==> r == Decide(isAuthenticated, user, path)
    ensures Decide(isAuthenticated, user, path).Crash? ==> r == Redirect(ShopHome)
  {
    if (!isAuthenticated || user.None?) && !IsAuthPath(path) then
      Redirect(LoginPath)
    else if path == "/" then
      Redirect(RoleHome(RoleOf(user)))
    else if isAuthenticated && IsAuthPath(path) then
      Redirect(RoleHome(RoleOf(user)))
    else if isAuthenticated && RoleOf(user) != Some("admin") && StartsWith(path, "/admin") then
      Redirect(UnauthPath)
    else if isAuthenticated && RoleOf(user) == Some("admin") && StartsWith(path, "/shop") then
      Redirect(RoleHome(RoleOf(user)))
    else
      Render
  }

  /** The state that a successful registration leaves behind (authenticated, no user)
      crashes the guard on the register page and on the login page. */
  lemma CrashAfterRegistration()
    ensures Decide(true, None, "/auth/register") == Crash
    ensures Decide(true, None, "/auth/login") == Crash
  {
    assert OccursAt("/auth/register", "/register", 5);
    assert OccursAt("/auth/login", "/login", 5);
  }

  /** Containment versus prefix: "/shop/login" counts as a login page wherever the
      "/login" occurs, while the /admin and /shop tests look at the start only. */
  lemma LoginDetectedAnywhere(u: SessionUser)
    requires u.role == "admin"
    ensures Decide(true, Some(u), "/shop/login") == Redirect(AdminHome)
    ensures Decide(false, None, "/shop/login") == Render
  {
    assert OccursAt("/shop/login", "/login", 5);
  }

  /** A session on a page that is not a login/register page and not the root is let
      through when its role passes the two prefix tests. */
  lemma PassesRoleTests(u: SessionUser, path: string)
    requires path != "/" && !IsAuthPath(path)
    requires !(u.role != "admin" && StartsWith(path, "/admin"))
    requires !(u.role == "admin" && StartsWith(path, "/shop"))
    ensures Decide(true, Some(u), path) == Render
  {
  }

  lemma ShopTestIsPrefix(u: SessionUser)
    requires u.role == "admin"
    ensures Decide(true, Some(u), "/x/shop") == Render
  {
    var p := "/x/shop";
    MissingCharNotContains(p, "/login", 'l');
    MissingCharNotContains(p, "/register", 'r');
    MismatchNotPrefix(p, "/shop", 1);
    assert p[1] == 'x';
    PassesRoleTests(u, p);
  }

  lemma AdminTestIsPrefix(u: SessionUser)
    requires u.role != "admin"
    ensures Decide(true, Some(u), "/x/admin") == Render
  {
    var p := "/x/admin";
    MissingCharNotContains(p, "/login", 'l');
    MissingCharNotContains(p, "/register", 'g');
    MismatchNotPrefix(p, "/admin", 1);
    assert p[1] == 'x';
    PassesRoleTests(u, p);
  }
}
