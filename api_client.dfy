/**
 * The HTTP client's interceptors (src/lib/api.ts): the request interceptor
 * picks the admin or the user token by URL and sets the bearer header; the
 * response interceptor clears the matching stored credentials on a 401 and
 * re-rejects every error.
 */
module ApiClient {
  import opened Wrappers
  import opened Text
  import opened Storage

  /** `config.url?.includes("/admin/")`; a missing URL is not an admin request. */
  predicate IsAdminUrl(url: Option<string>) {
    url.Some? && Contains(url.value, "/admin/")
  }

  /** The storage key whose token a request carries. */
  function TokenKey(url: Option<string>): (key: string)
    ensures key == "admin_token" <==> IsAdminUrl(url)
    ensures key == "token" <==> !IsAdminUrl(url)
  {
    if IsAdminUrl(url) then "admin_token" else "token"
  }

  /** The token read for a request; outside a browser there is none. */
  function SelectedToken(url: Option<string>, entries: map<string, string>, inBrowser: bool): (t: Option<string>)
    ensures t.Some? <==> inBrowser && TokenKey(url) in entries
    ensures t.Some? ==> t.value == entries[TokenKey(url)]
  {
    if inBrowser && TokenKey(url) in entries then Some(entries[TokenKey(url)]) else None
  }

  /** `if (token) config.headers.Authorization = "Bearer " + token`. */
  function WithAuthorization(headers: map<string, string>, token: Option<string>): (h: map<string, string>)
    ensures token.Some? && token.value != "" ==> h == headers["Authorization" := "Bearer " + token.value]
    ensures !(token.Some? && token.value != "") ==> h == headers
  {
    if token.Some? && token.value != "" then headers["Authorization" := "Bearer " + token.value] else headers
  }

  /** The keys a 401 removes: the admin pair for an admin URL, the user pair otherwise. */
  function CredentialKeys(url: Option<string>): (keys: set<string>)
    ensures IsAdminUrl(url) ==> keys == {"admin_token", "admin_user"}
    ensures !IsAdminUrl(url) ==> keys == {"token", "user"}
  {
    if IsAdminUrl(url) then {"admin_token", "admin_user"} else {"token", "user"}
  }

  /** The store after an error response: only a 401 seen in a browser removes anything. */
  function StorageAfterError(entries: map<string, string>, url: Option<string>, status: Option<int>, inBrowser: bool)
    : (r: map<string, string>)
    ensures r.Keys <= entries.Keys
    ensures forall k :: k in r ==> r[k] == entries[k]
    ensures status != Some(401) || !inBrowser ==> r == entries
    ensures status == Some(401) && inBrowser ==> r.Keys == entries.Keys - CredentialKeys(url)
  {
    if status == Some(401) && inBrowser then entries - CredentialKeys(url) else entries
  }

  /** A user-side 401 never signs the admin out, and an admin-side 401 never signs the user out. */
  lemma UnauthorizedKeepsOtherSession(entries: map<string, string>, url: Option<string>, inBrowser: bool)
    ensures var r := StorageAfterError(entries, url, Some(401), inBrowser);
      (!IsAdminUrl(url) ==> forall k :: k in {"admin_token", "admin_user"} && k in entries ==> k in r) &&
      (IsAdminUrl(url) ==> forall k :: k in {"token", "user"} && k in entries ==> k in r)
  {
  }

  /** The part of an axios request config the interceptor changes. */
  class RequestConfig {
    const url: Option<string>
    var headers: map<string, string>

    constructor (url: Option<string>, headers: map<string, string>)
      ensures this.url == url && this.headers == headers
    {
      this.url := url;
      this.headers := headers;
    }
  }

  /** The request interceptor. */
  method OnRequest(config: RequestConfig, storage: KeyValueStore, inBrowser: bool)
    modifies config
    ensures config.headers == WithAuthorization(old(config.headers), SelectedToken(config.url, storage.entries, inBrowser))
  {
    var token: Option<string> := None;
    if inBrowser {
      token := storage.GetItem(TokenKey(config.url));
    }
    if token.Some? && token.value != "" {
      config.headers := config.headers["Authorization" := "Bearer " + token.value];
    }
  }

  /** The response interceptor's error path. `status` is None when no response arrived.
      The error is re-rejected in every case; `redirect` is the navigation it starts. */
  method OnResponseError(storage: KeyValueStore, url: Option<string>, status: Option<int>,
                         inBrowser: bool, currentPath: string)
    returns (redirect: Option<string>)
    modifies storage
    ensures storage.entries == StorageAfterError(old(storage.entries), url, status, inBrowser)
    ensures redirect.Some? <==>
      status == Some(401) && inBrowser && IsAdminUrl(url) && !Contains(currentPath, "/admin/login")
    ensures redirect.Some? ==> redirect.value == "/admin/login"
  {
    redirect := None;
    if status == Some(401) {
      if IsAdminUrl(url) {
        if inBrowser {
          storage.RemoveItem("admin_token");
          storage.RemoveItem("admin_user");
          if !Contains(currentPath, "/admin/login") {
            redirect := Some("/admin/login");
          }
        }
      } else {
        if inBrowser {
          storage.RemoveItem("token");
          storage.RemoveItem("user");
        }
      }
    }
  }
}
