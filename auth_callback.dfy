/**
 * The OAuth / email-confirmation landing page (src/app/callback/page.tsx):
 * from the session lookup and the `type` query parameter it decides the
 * status, the message, and where it goes after which delay.
 */
module AuthCallback {
  import opened Wrappers
  import opened Storage
  import LoginRedirect

  datatype Status = Loading | Success | Failure

  const SignedIn := "Đăng nhập thành công! Đang chuyển hướng..."
  const EmailConfirmed := "Email đã được xác nhận! Đang chuyển đến trang đăng nhập..."
  const ToPasswordReset := "Đang chuyển đến trang đặt lại mật khẩu..."
  const InvalidSession := "Phiên đăng nhập không hợp lệ. Vui lòng đăng nhập lại."
  const LookupError := "Đã xảy ra lỗi khi xử lý đăng nhập. Vui lòng thử lại."
  const GenericError := "Đã xảy ra lỗi. Vui lòng thử lại."
  const ResetPath := "/reset-password"

  /** What `getSession()` produced: it threw, it returned an error, a session, or neither. */
  datatype SessionLookup = LookupThrew | LookupFailed | HasSession | NoSession

  /** A redirect scheduled with setTimeout. */
  datatype Scheduled = Scheduled(target: string, delayMs: nat)

  datatype Outcome = Outcome(status: Status, message: string, next: Option<Scheduled>)

  /** The decision for every case except a session, which also consumes the stored target. */
  function Decide(lookup: SessionLookup, kind: Option<string>, target: string): (o: Outcome)
    ensures o.status != Loading
    ensures o.status == Success <==>
      lookup == HasSession || (lookup == NoSession && (kind == Some("signup") || kind == Some("recovery")))
    ensures lookup == HasSession ==> o == Outcome(Success, SignedIn, Some(Scheduled(target, 1000)))
    ensures lookup == LookupFailed ==> o == Outcome(Failure, LookupError, None)
    ensures lookup == LookupThrew ==> o == Outcome(Failure, GenericError, None)
    ensures lookup == NoSession && kind == Some("signup") ==>
      o == Outcome(Success, EmailConfirmed, Some(Scheduled(LoginRedirect.LoginPath, 2000)))
    ensures lookup == NoSession && kind == Some("recovery") ==>
      o == Outcome(Success, ToPasswordReset, Some(Scheduled(ResetPath, 1000)))
    ensures lookup == NoSession && kind != Some("signup") && kind != Some("recovery") ==>
      o == Outcome(Failure, InvalidSession, Some(Scheduled(LoginRedirect.LoginPath, 2000)))
  {
    match lookup
    case LookupThrew => Outcome(Failure, GenericError, None)
    case LookupFailed => Outcome(Failure, LookupError, None)
    case HasSession => Outcome(Success, SignedIn, Some(Scheduled(target, 1000)))
    case NoSession =>
      if kind == Some("signup") then Outcome(Success, EmailConfirmed, Some(Scheduled(LoginRedirect.LoginPath, 2000)))
      else if kind == Some("recovery") then Outcome(Success, ToPasswordReset, Some(Scheduled(ResetPath, 1000)))
      else Outcome(Failure, InvalidSession, Some(Scheduled(LoginRedirect.LoginPath, 2000)))
  }

  /** handleCallback: only a found session reads and clears the stored post-login target. */
  method HandleCallback(lookup: SessionLookup, kind: Option<string>, session: KeyValueStore) returns (o: Outcome)
    modifies session
    ensures lookup == HasSession ==>
      && o == Decide(lookup, kind, LoginRedirect.Target(old(session.GetItem(LoginRedirect.RedirectKey))))
      && session.entries == old(session.entries) - {LoginRedirect.RedirectKey}
    ensures lookup != HasSession ==> o == Decide(lookup, kind, LoginRedirect.HomePath) && session.entries == old(session.entries)
  {
    if lookup == HasSession {
      var target := LoginRedirect.TakeTarget(session);
      o := Decide(lookup, kind, target);
    } else {
      o := Decide(lookup, kind, LoginRedirect.HomePath);
    }
  }

  /** Every scheduled redirect leaves the callback page for a non-empty target, and the page
      never schedules a return to itself. */
  lemma ScheduledTargetsLeave(lookup: SessionLookup, kind: Option<string>, stored: Option<string>)
    requires stored.Some? ==> stored.value != "/callback"
    ensures var o := Decide(lookup, kind, LoginRedirect.Target(stored));
            o.next.Some? ==> o.next.value.target != "" && o.next.value.target != "/callback"
  {
  }
}
