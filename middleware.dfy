/**
 * The admin route guard (src/middleware.ts): a decision from the request path
 * and the `admin_token` cookie to pass-through or redirect.
 */
module Middleware {
  import opened Wrappers
  import opened Text

  datatype Decision = Next | Redirect(target: string)

  const AdminLogin := "/admin/login"
  const AdminDashboard := "/admin/dashboard"

  /** `request.cookies.get("admin_token")?.value` is truthy: present and non-empty. */
  predicate HasToken(cookie: Option<string>) {
    cookie.Some? && cookie.value != ""
  }

  /** The `matcher` "/admin/:path*": "/admin" itself or anything below "/admin/". */
  predicate Matched(pathname: string) {
    pathname == "/admin" || StartsWith(pathname, "/admin/")
  }

  /** `middleware(request)` */
  function Route(pathname: string, cookie: Option<string>): (d: Decision)
    ensures d.Redirect? ==> d.target != pathname
    ensures d.Redirect? ==> d.target == AdminLogin || d.target == AdminDashboard
    ensures pathname == "/admin" || pathname == "/admin/" ==> d == Redirect(AdminLogin)
    ensures pathname == AdminLogin ==> d == if HasToken(cookie) then Redirect(AdminDashboard) else Next
    ensures StartsWith(pathname, "/admin") && pathname !in {"/admin", "/admin/", AdminLogin} ==>
              d == if HasToken(cookie) then Next else Redirect(AdminLogin)
    ensures !StartsWith(pathname, "/admin") ==> d == Next
  {
    if pathname == "/admin" || pathname == "/admin/" then Redirect(AdminLogin)
    else if pathname == AdminLogin && HasToken(cookie) then Redirect(AdminDashboard)
    else if StartsWith(pathname, "/admin") && pathname != AdminLogin && !HasToken(cookie) then Redirect(AdminLogin)
    else Next
  }

  /** What the framework does with a request: paths outside the matcher never reach the guard. */
  function Handle(pathname: string, cookie: Option<string>): (d: Decision)
    ensures !Matched(pathname) ==> d == Next
    ensures Matched(pathname) ==> d == Route(pathname, cookie)
  {
    if Matched(pathname) then Route(pathname, cookie) else Next
  }

  /** Following the guard's redirects with the same cookie reaches a page within two hops:
      there is no redirect loop. */
  lemma RedirectsSettle(pathname: string, cookie: Option<string>)
    ensures Route(pathname, cookie).Redirect? ==>
      var t1 := Route(pathname, cookie).target;
      Route(t1, cookie).Redirect? ==>
        Route(Route(t1, cookie).target, cookie) == Next
  {
    assert StartsWith(AdminLogin, "/admin") && StartsWith(AdminDashboard, "/admin");
  }
}
