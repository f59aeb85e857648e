/**
 * The post-login target kept in `sessionStorage` under "redirectAfterLogin"
 * (src/stores/user-store.ts): pages that need a session remember themselves
 * there before sending the visitor to /login, and the login and callback
 * pages take it back out, falling back to the home page.
 */
module LoginRedirect {
  import opened Wrappers
  import opened Storage

  const RedirectKey := "redirectAfterLogin"
  const LoginPath := "/login"
  const HomePath := "/"

  /** `getRedirectAfterLogin() || "/"`: a missing or empty entry means the home page. */
  function Target(stored: Option<string>): (target: string)
    ensures target != ""
    ensures stored.Some? && stored.value != "" ==> target == stored.value
    ensures stored.None? || stored.value == "" ==> target == HomePath
  {
    if stored.Some? && stored.value != "" then stored.value else HomePath
  }

  /** Reads the target and clears the entry (getRedirectAfterLogin, then clearRedirectAfterLogin). */
  method TakeTarget(session: KeyValueStore) returns (target: string)
    modifies session
    ensures target == Target(old(session.GetItem(RedirectKey)))
    ensures session.entries == old(session.entries) - {RedirectKey}
  {
    target := Target(session.GetItem(RedirectKey));
    session.RemoveItem(RedirectKey);
  }

  /** The auth check of a page that needs a session: without one, remember `ownPath` and go
      to the login page; with one, stay and load. */
  method RequireSession(hasSession: bool, ownPath: string, session: KeyValueStore) returns (toLogin: bool)
    modifies session
    ensures toLogin <==> !hasSession
    ensures session.entries == if hasSession then old(session.entries) else old(session.entries)[RedirectKey := ownPath]
  {
    toLogin := !hasSession;
    if toLogin {
      session.SetItem(RedirectKey, ownPath);
    }
  }

  /** A page remembered on the way to /login is where the visitor lands after signing in. */
  lemma RememberedPageIsTarget(entries: map<string, string>, ownPath: string)
    requires ownPath != ""
    ensures var stored := entries[RedirectKey := ownPath];
            Target(if RedirectKey in stored then Some(stored[RedirectKey]) else None) == ownPath
  {
  }
}
