/** The route middleware: signed-out visitors go to the login page, and the
    admin-only sections go to the dashboard for anyone whose `users` row does
    not say 'admin'. Everything else passes. */
module Auth {
  import opened Types

  /** The session's user, when there is a session. */
  datatype Session = Session(userId: Id)

  datatype Verdict =
    | RedirectToLogin      // redirect to /auth/login
    | RedirectToDashboard  // redirect to /dashboard
    | PassThrough          // NextResponse.next()

  const AdminOnlyPaths: seq<string> := ["/admin", "/reports"]

  /** `String.prototype.startsWith`. */
  function StartsWith(s: string, prefix: string): (b: bool)
    ensures b <==> |prefix| <= |s| && forall i :: 0 <= i < |prefix| ==> s[i] == prefix[i]
    ensures b ==> prefix <= s
  {
    |prefix| <= |s| && s[..|prefix|] == prefix
  }

  /** `prefixes.some(p => path.startsWith(p))`. */
  function AnyPrefix(prefixes: seq<string>, path: string): (b: bool)
    ensures b <==> exists i :: 0 <= i < |prefixes| && StartsWith(path, prefixes[i])
  {
    if prefixes == [] then false
    else StartsWith(path, prefixes[0]) || AnyPrefix(prefixes[1..], path)
  }

  function IsAdminOnly(path: string): (b: bool)
    ensures b <==> StartsWith(path, "/admin") || StartsWith(path, "/reports")
  {
    assert AdminOnlyPaths[0] == "/admin" && AdminOnlyPaths[1] == "/reports";
    assert StartsWith(path, "/admin") ==> StartsWith(path, AdminOnlyPaths[0]);
    assert StartsWith(path, "/reports") ==> StartsWith(path, AdminOnlyPaths[1]);
    AnyPrefix(AdminOnlyPaths, path)
  }

  /** `userData?.role === 'admin'`: a missing row reads as not an admin. */
  function IsAdminRow(role: Option<Role>): (b: bool)
    ensures b <==> role.Some? && RoleName(role.value) == "admin"
  {
    role.Some? && role.value.Admin?
  }

  /** The middleware's decision for a request to `path`, given the session and
      the `role` column of the session user's `users` row (None when the
      lookup returns no row). The lookup is made only for admin-only paths,
      which the contract reflects: off those paths `role` does not matter. */
  function Decide(session: Option<Session>, path: string, role: Option<Role>): (v: Verdict)
    // no session: the login page, whatever the path and role
    ensures session.None? ==> v.RedirectToLogin?
    ensures v.RedirectToLogin? ==> session.None?
    // an admin-only prefix and a row that is not an admin's: the dashboard
    ensures v.RedirectToDashboard? <==>
      session.Some? && (StartsWith(path, "/admin") || StartsWith(path, "/reports")) && !IsAdminRow(role)
    // everyone signed in passes elsewhere; admins pass everywhere
    ensures v.PassThrough? <==> session.Some? && (!IsAdminOnly(path) || IsAdminRow(role))
  {
    if session.None? then RedirectToLogin
    else if IsAdminOnly(path) && !IsAdminRow(role) then RedirectToDashboard
    else PassThrough
  }

  /** The role lookup affects the decision only on admin-only paths. */
  lemma RoleMattersOnlyOnAdminPaths(session: Option<Session>, path: string, r1: Option<Role>, r2: Option<Role>)
    requires !IsAdminOnly(path)
    ensures Decide(session, path, r1) == Decide(session, path, r2)
  {
  }

  /** The test is a bare prefix match, not a path-segment match. */
  lemma PrefixMatchIsLoose()
    ensures IsAdminOnly("/administrator") && IsAdminOnly("/reports-x") && IsAdminOnly("/admin/users")
    ensures !IsAdminOnly("/dashboard") && !IsAdminOnly("/users/admin")
  {
    assert "/administrator"[..6] == "/admin";
    assert "/reports-x"[..8] == "/reports";
    assert "/admin/users"[..6] == "/admin";
    assert "/dashboard"[..6] != "/admin" by { assert "/dashboard"[1] != "/admin"[1]; }
    assert "/dashboard"[..8] != "/reports" by { assert "/dashboard"[1] != "/reports"[1]; }
    assert "/users/admin"[..6] != "/admin" by { assert "/users/admin"[1] != "/admin"[1]; }
    assert "/users/admin"[..8] != "/reports" by { assert "/users/admin"[1] != "/reports"[1]; }
  }
}
