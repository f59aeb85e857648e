/**
 * The admin login page (src/app/admin/login/page.tsx): the empty-field
 * guard, what a successful login stores (token, user, cookie) and how a
 * failure is reported.
 */
module AdminLogin {
  import opened Wrappers
  import opened Storage
  import Middleware
  import AdminOrders

  const TokenKey := "admin_token"
  const UserKey := "admin_user"
  const CookieMaxAge := 7 * 24 * 60 * 60
  const Dashboard := "/admin/dashboard"
  const FieldsMissing := "Vui lòng điền đầy đủ thông tin!"
  const WrongCredentials := "Email hoặc mật khẩu không đúng!"
  const NotAnAdmin := "Bạn không có quyền truy cập trang quản trị!"
  const LoginFailed := "Đăng nhập thất bại. Vui lòng thử lại!"

  /** The reply of the admin login endpoint; `userJson` is the user record as serialised. */
  datatype LoginReply =
    | LoggedIn(accessToken: string, userName: string, userJson: string)
    | LoginFailed(status: Option<int>, message: Option<string>)

  datatype Cookie = Cookie(name: string, value: string, path: string, maxAge: int)

  /** The failure notice: 401, then 403, then the backend's message, then a generic text. */
  function FailureNotice(status: Option<int>, message: Option<string>): (notice: string)
    ensures status == Some(401) ==> notice == WrongCredentials
    ensures status == Some(403) ==> notice == NotAnAdmin
    ensures status != Some(401) && status != Some(403) && message.Some? && message.value != "" ==> notice == message.value
    ensures status != Some(401) && status != Some(403) && (message.None? || message.value == "") ==> notice == LoginFailed
  {
    if status == Some(401) then WrongCredentials
    else if status == Some(403) then NotAnAdmin
    else if message.Some? && message.value != "" then message.value
    else LoginFailed
  }

  class AdminLoginPage {
    var email: string
    var password: string
    var isLoading: bool
    var notices: seq<string>
    /** The `document.cookie` assignment, when one was made. */
    var cookie: Option<Cookie>
    /** The dashboard redirect scheduled after a successful login (1500 ms). */
    var scheduled: Option<string>
    var attempts: nat
    /** localStorage */
    const storage: KeyValueStore

    constructor (storage: KeyValueStore)
      ensures this.storage == storage && email == "" && password == "" && !isLoading
      ensures notices == [] && cookie.None? && scheduled.None? && attempts == 0
    {
      this.storage := storage;
      email := "";
      password := "";
      isLoading := false;
      notices := [];
      cookie := None;
      scheduled := None;
      attempts := 0;
    }

    /** handleSubmit */
    method Submit(reply: LoginReply)
      modifies this, storage
      ensures email == old(email) && password == old(password) && !isLoading
      ensures email == "" || password == "" ==>
        && notices == old(notices) + [FieldsMissing] && attempts == old(attempts)
        && storage.entries == old(storage.entries) && cookie == old(cookie) && scheduled == old(scheduled)
      ensures email != "" && password != "" ==> attempts == old(attempts) + 1
      ensures email != "" && password != "" && reply.LoggedIn? ==>
        && storage.entries == old(storage.entries)[TokenKey := reply.accessToken][UserKey := reply.userJson]
        && cookie == Some(Cookie(TokenKey, reply.accessToken, "/", CookieMaxAge))
        && notices == old(notices) + ["Xin chào " + reply.userName + "! Đăng nhập thành công."]
        && scheduled == Some(Dashboard)
      ensures email != "" && password != "" && reply.LoginFailed? ==>
        && storage.entries == old(storage.entries) && cookie == old(cookie) && scheduled == old(scheduled)
        && notices == old(notices) + [FailureNotice(reply.status, reply.message)]
    {
      if email == "" || password == "" {
        notices := notices + [FieldsMissing];
        isLoading := false;
        return;
      }
      isLoading := true;
      attempts := attempts + 1;
      match reply {
        case LoggedIn(token, name, userJson) =>
          storage.SetItem(TokenKey, token);
          storage.SetItem(UserKey, userJson);
          cookie := Some(Cookie(TokenKey, token, "/", CookieMaxAge));
          notices := notices + ["Xin chào " + name + "! Đăng nhập thành công."];
          scheduled := Some(Dashboard);
        case LoginFailed(status, message) =>
          notices := notices + [FailureNotice(status, message)];
      }
      isLoading := false;
    }
  }

  /** The cookie set on a successful login lets the middleware through to the dashboard, and
      sends a later visit of the login page on to the dashboard, provided the token is not
      empty. */
  lemma LoginCookieOpensDashboard(token: string)
    requires token != ""
    ensures Middleware.Route(Dashboard, Some(token)) == Middleware.Next
    ensures Middleware.Route(Middleware.AdminLogin, Some(token)) == Middleware.Redirect(Dashboard)
  {
  }

  /** With the token stored, the order list loads instead of sending the admin back to the
      login page. */
  lemma StoredTokenOpensOrders(entries: map<string, string>, token: string, userJson: string)
    requires token != ""
    ensures var stored := entries[TokenKey := token][UserKey := userJson];
            AdminOrders.OnMount(if TokenKey in stored then Some(stored[TokenKey]) else None) == AdminOrders.LoadOrders
  {
  }
}
