/** The authenticated request gateway: the axios instance's request interceptor attaches
    the stored token, its response interceptor reacts to 401 answers. */
module Gateway {
  import opened Wrappers
  import AuthProvider

  type Headers = map<string, string>

  const AuthorizationHeader := "Authorization"
  const LoginPath := "/login"

  /** The request interceptor. An absent or empty stored token (both falsy) leaves the
      headers alone; otherwise `Authorization: Bearer <token>` is set. */
  function AttachToken(stored: Option<string>, headers: Headers): (r: Headers)
    ensures stored.Some? && stored.value != "" ==>
      AuthorizationHeader in r && r[AuthorizationHeader] == "Bearer " + stored.value
    ensures stored.None? || stored.value == "" ==> r == headers
    ensures forall k :: k in headers && k != AuthorizationHeader ==> k in r && r[k] == headers[k]
    ensures r.Keys == headers.Keys + (if stored.Some? && stored.value != "" then {AuthorizationHeader} else {})
  {
    if stored.Some? && stored.value != "" then headers[AuthorizationHeader := "Bearer " + stored.value]
    else headers
  }

  /** What a request came back with: a response, or an error that may carry an HTTP status. */
  datatype Reply<T> = Answered(response: T) | Errored(status: Option<int>)

  /** What the response interceptor hands on: the reply as the caller sees it, the stored
      token afterwards, and a forced navigation if any. */
  datatype Handled<T> = Handled(toCaller: Reply<T>, stored: Option<string>, redirect: Option<string>)

  /** The response interceptor. */
  function OnReply<T>(stored: Option<string>, reply: Reply<T>): (h: Handled<T>)
    ensures h.toCaller == reply
    ensures reply.Errored? && reply.status == Some(401) ==> h.stored.None? && h.redirect == Some(LoginPath)
    ensures !(reply.Errored? && reply.status == Some(401)) ==> h.stored == stored && h.redirect.None?
  {
    match reply
    case Answered(_) => Handled(reply, stored, None)
    case Errored(status) =>
      if status == Some(401) then Handled(reply, None, Some(LoginPath))
      else Handled(reply, stored, None)
  }

  /** After a 401 no later request carries a bearer token, whatever was stored before. */
  lemma NoTokenAfterUnauthorized<T>(stored: Option<string>, headers: Headers)
    ensures AttachToken(OnReply<T>(stored, Errored(Some(401))).stored, headers) == headers
  {
  }

  /** A sign-in change that obtained token `t` makes the next request carry `Bearer t`. */
  lemma SignInAuthorizesRequests(s: AuthProvider.AuthState, p: AuthProvider.ProviderUser, t: string,
                                 sync: AuthProvider.SyncOutcome, headers: Headers)
    requires t != ""
    ensures var after := AuthProvider.Replay(s, AuthProvider.OnAuthStateChanged(Some(p), Some(t), sync));
      && after.token == Some(t)
      && AuthorizationHeader in AttachToken(after.token, headers)
      && AttachToken(after.token, headers)[AuthorizationHeader] == "Bearer " + t
  {
    AuthProvider.SignedInOutcome(s, p, t, sync);
  }

  /** Signing out makes the next request go out without a bearer token. */
  lemma SignOutDeauthorizesRequests(s: AuthProvider.AuthState, headers: Headers)
    ensures var after := AuthProvider.Replay(s, AuthProvider.OnAuthStateChanged(None, None, AuthProvider.SyncFailed));
      AttachToken(after.token, headers) == headers
  {
    AuthProvider.SignedOutOutcome(s);
  }
}
