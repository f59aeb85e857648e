/**
 * The customer login / registration page (src/app/login/page.tsx): the
 * register guards, sign-in with the post-login redirect, sign-up switching
 * back to the login mode, the mode toggle, OAuth and the password reset.
 */
module Login {
  import opened Wrappers
  import opened Storage
  import LoginRedirect

  const PasswordMismatch := "Mật khẩu xác nhận không khớp"
  const PasswordTooShort := "Mật khẩu phải có ít nhất 6 ký tự"
  const MinPasswordLength := 6
  const SignInFailed := "Đăng nhập thất bại"
  const SignInSucceeded := "Đăng nhập thành công!"
  const SignUpFailed := "Đăng ký thất bại"
  const SignUpSucceeded := "Đăng ký thành công! Vui lòng kiểm tra email để xác nhận tài khoản."
  const GenericError := "Đã xảy ra lỗi. Vui lòng thử lại."
  const EmailNeeded := "Vui lòng nhập email để đặt lại mật khẩu"
  const ResetFailed := "Không thể gửi email đặt lại mật khẩu"
  const ResetSent := "Đã gửi email đặt lại mật khẩu. Vui lòng kiểm tra hộp thư của bạn."

  datatype LoginForm = LoginForm(fullName: string, email: string, password: string, confirmPassword: string)

  const EmptyForm := LoginForm("", "", "", "")

  /** What the auth service answered: success, an error object (with a possibly missing or
      empty message), or a thrown exception. */
  datatype AuthReply = Accepted | Rejected(message: Option<string>) | Threw

  datatype AuthRequest =
    | SignIn(email: string, password: string)
    | SignUp(fullName: string, email: string, password: string)
    | ResetPassword(email: string)
    | OAuth(provider: Provider)

  datatype Provider = Google | Facebook

  /** `error.message || fallback` */
  function ErrorText(message: Option<string>, fallback: string): (text: string)
    ensures message.Some? && message.value != "" ==> text == message.value
    ensures message.None? || message.value == "" ==> text == fallback
  {
    if message.Some? && message.value != "" then message.value else fallback
  }

  /** The registration checks, in source order: the confirmation must match, then the
      password must have at least six characters. */
  function RegisterGuard(form: LoginForm): (error: Option<string>)
    ensures error.None? <==> form.password == form.confirmPassword && |form.password| >= MinPasswordLength
    ensures form.password != form.confirmPassword ==> error == Some(PasswordMismatch)
    ensures form.password == form.confirmPassword && |form.password| < MinPasswordLength ==> error == Some(PasswordTooShort)
  {
    if form.password != form.confirmPassword then Some(PasswordMismatch)
    else if |form.password| < MinPasswordLength then Some(PasswordTooShort)
    else None
  }

  /** The OAuth failure notice names the provider. */
  function OAuthFailed(provider: Provider): string {
    "Đăng nhập " + (if provider == Google then "Google" else "Facebook") + " thất bại"
  }

  class LoginPage {
    var isLogin: bool
    var loading: bool
    var oauthLoading: Option<Provider>
    var form: LoginForm
    var notices: seq<string>
    /** Requests sent to the auth service, oldest first. */
    var requests: seq<AuthRequest>
    /** sessionStorage, holding the post-login target. */
    const session: KeyValueStore

    constructor (session: KeyValueStore)
      ensures this.session == session
      ensures isLogin && !loading && oauthLoading.None? && form == EmptyForm
      ensures notices == [] && requests == []
    {
      this.session := session;
      isLogin := true;
      loading := false;
      oauthLoading := None;
      form := EmptyForm;
      notices := [];
      requests := [];
    }

    /** The mount effect: a visitor who is already signed in is sent to the stored target. */
    method OnMount(signedIn: bool) returns (redirect: Option<string>)
      modifies session
      ensures redirect.Some? <==> signedIn
      ensures signedIn ==> redirect == Some(LoginRedirect.Target(old(session.GetItem(LoginRedirect.RedirectKey))))
      ensures session.entries == if signedIn then old(session.entries) - {LoginRedirect.RedirectKey} else old(session.entries)
    {
      if signedIn {
        var target := LoginRedirect.TakeTarget(session);
        redirect := Some(target);
      } else {
        redirect := None;
      }
    }

    /** handleEmailAuth. In login mode the form is sent for sign-in, and on success the
        visitor goes to the stored target. In register mode the guards run first; a
        registration that is accepted switches the page to the login mode. Loading ends
        in every case. */
    method EmailAuth(reply: AuthReply) returns (redirect: Option<string>)
      modifies this, session
      ensures !loading && form == old(form) && oauthLoading == old(oauthLoading)
      ensures redirect.Some? <==> old(isLogin) && reply.Accepted?
      ensures old(isLogin) ==>
        && requests == old(requests) + [SignIn(form.email, form.password)]
        && isLogin
        && notices == old(notices) + [match reply
                                      case Accepted => SignInSucceeded
                                      case Rejected(m) => ErrorText(m, SignInFailed)
                                      case Threw => GenericError]
      ensures old(isLogin) && reply.Accepted? ==>
        && redirect == Some(LoginRedirect.Target(old(session.GetItem(LoginRedirect.RedirectKey))))
        && session.entries == old(session.entries) - {LoginRedirect.RedirectKey}
      ensures !(old(isLogin) && reply.Accepted?) ==> session.entries == old(session.entries)
      ensures !old(isLogin) && RegisterGuard(form).Some? ==>
        requests == old(requests) && notices == old(notices) + [RegisterGuard(form).value] && !isLogin
      ensures !old(isLogin) && RegisterGuard(form).None? ==>
        && requests == old(requests) + [SignUp(form.fullName, form.email, form.password)]
        && (isLogin <==> reply.Accepted?)
        && notices == old(notices) + [match reply
                                      case Accepted => SignUpSucceeded
                                      case Rejected(m) => ErrorText(m, SignUpFailed)
                                      case Threw => GenericError]
    {
      loading := true;
      redirect := None;
      if isLogin {
        requests := requests + [SignIn(form.email, form.password)];
        match reply {
          case Accepted =>
            notices := notices + [SignInSucceeded];
            var target := LoginRedirect.TakeTarget(session);
            redirect := Some(target);
          case Rejected(m) =>
            notices := notices + [ErrorText(m, SignInFailed)];
          case Threw =>
            notices := notices + [GenericError];
        }
      } else {
        var error := RegisterGuard(form);
        if error.Some? {
          notices := notices + [error.value];
          loading := false;
          return;
        }
        requests := requests + [SignUp(form.fullName, form.email, form.password)];
        match reply {
          case Accepted =>
            notices := notices + [SignUpSucceeded];
            isLogin := true;
          case Rejected(m) =>
            notices := notices + [ErrorText(m, SignUpFailed)];
          case Threw =>
            notices := notices + [GenericError];
        }
      }
      loading := false;
    }

    /** The "sign up / sign in" link: flips the mode and empties all four fields. */
    method ToggleMode()
      modifies this
      ensures isLogin == !old(isLogin) && form == EmptyForm
      ensures loading == old(loading) && oauthLoading == old(oauthLoading)
      ensures notices == old(notices) && requests == old(requests)
    {
      isLogin := !isLogin;
      form := EmptyForm;
    }

    /** handleOAuthLogin: the provider's button spins until the browser leaves; an error or a
        thrown exception stops it and raises a notice. */
    method OAuthLogin(provider: Provider, reply: AuthReply)
      modifies this
      ensures requests == old(requests) + [OAuth(provider)]
      ensures oauthLoading == if reply.Accepted? then Some(provider) else None
      ensures notices == old(notices) + match reply
                                        case Accepted => []
                                        case Rejected(_) => [OAuthFailed(provider)]
                                        case Threw => [GenericError]
      ensures isLogin == old(isLogin) && loading == old(loading) && form == old(form)
    {
      oauthLoading := Some(provider);
      requests := requests + [OAuth(provider)];
      match reply {
        case Accepted =>
        case Rejected(_) =>
          notices := notices + [OAuthFailed(provider)];
          oauthLoading := None;
        case Threw =>
          notices := notices + [GenericError];
          oauthLoading := None;
      }
    }

    /** handleForgotPassword: an empty email is refused before any request. */
    method ForgotPassword(reply: AuthReply)
      modifies this
      ensures form.email == "" ==> requests == old(requests) && notices == old(notices) + [EmailNeeded] && loading == old(loading)
      ensures form.email != "" ==>
        && requests == old(requests) + [ResetPassword(form.email)]
        && !loading
        && notices == old(notices) + [match reply
                                      case Accepted => ResetSent
                                      case Rejected(m) => ErrorText(m, ResetFailed)
                                      case Threw => GenericError]
      ensures isLogin == old(isLogin) && form == old(form) && oauthLoading == old(oauthLoading)
    {
      if form.email == "" {
        notices := notices + [EmailNeeded];
        return;
      }
      loading := true;
      requests := requests + [ResetPassword(form.email)];
      match reply {
        case Accepted => notices := notices + [ResetSent];
        case Rejected(m) => notices := notices + [ErrorText(m, ResetFailed)];
        case Threw => notices := notices + [GenericError];
      }
      loading := false;
    }
  }

  /** After the toggle no registration can pass the guards until a password is typed. */
  lemma ToggledFormFailsRegistration()
    ensures RegisterGuard(EmptyForm) == Some(PasswordTooShort)
  {
  }
}
