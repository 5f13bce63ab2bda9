/** The session store (`AuthProvider`): the current user, the `loading` flag and the
    bearer token kept in durable storage under `access-token`.

    Each handler is one atomic step that yields the ordered list of effects it performs;
    `Replay` applies those effects to the store. Calls into the identity provider and the
    backend sync are not modelled: their outcomes are parameters. */
module AuthProvider {
  import opened Wrappers
  import opened Domain

  const TokenKey := "access-token"

  /** What the rest of the application can observe: the published user, the loading
      flag, and the token stored under `TokenKey`. */
  datatype AuthState = AuthState(user: Option<User>, loading: bool, token: Option<string>)

  /** The state on mount: no user yet, loading, and whatever token an earlier visit stored. */
  function Initial(stored: Option<string>): (s: AuthState)
    ensures s.loading && s.user.None? && s.token == stored
  {
    AuthState(None, true, stored)
  }

  /** The identity provider's user object, before the backend adds a role. */
  datatype ProviderUser = ProviderUser(
    uid: string,
    email: Option<string>,
    displayName: Option<string>,
    photoURL: Option<string>)

  /** The provider identity as first published: no role. */
  function Identity(p: ProviderUser): (u: User)
    ensures u.role.None? && u.uid == p.uid && u.email == p.email
    ensures u.displayName == p.displayName && u.photoURL == p.photoURL
  {
    User(p.uid, p.email, p.displayName, p.photoURL, None)
  }

  datatype AuthEffect =
    | Publish(user: Option<User>)
    | StoreToken(token: string)
    | RemoveToken
    | SyncRequest(bearer: string, name: Option<string>, email: Option<string>, photoURL: Option<string>)
    | SetLoading(loading: bool)

  function Apply(s: AuthState, e: AuthEffect): AuthState {
    match e
    case Publish(u) => s.(user := u)
    case StoreToken(t) => s.(token := Some(t))
    case RemoveToken => s.(token := None)
    case SyncRequest(_, _, _, _) => s
    case SetLoading(b) => s.(loading := b)
  }

  function Replay(s: AuthState, effects: seq<AuthEffect>): AuthState
    decreases |effects|
  {
    if |effects| == 0 then s else Replay(Apply(s, effects[0]), effects[1..])
  }

  /** The four actions that hand over to the identity provider. */
  datatype AuthAction = CreateUser | SignIn | GoogleSignIn | LogOut

  /** Each action raises `loading` before delegating; nothing else in the store changes. */
  function BeginAction(s: AuthState, a: AuthAction): (r: AuthState)
    ensures r.loading
    ensures r.user == s.user && r.token == s.token
  {
    Replay(s, [SetLoading(true)])
  }

  /** Outcome of the backend sync: the request failed or its body was not JSON, or the
      backend answered with a body whose `role` may be missing. */
  datatype SyncOutcome = SyncFailed | SyncAnswered(role: Option<string>)

  /** The `onAuthStateChanged` callback. `idToken` is the result of `getIdToken()`
      (None when that call rejects, which aborts the callback). */
  function OnAuthStateChanged(current: Option<ProviderUser>, idToken: Option<string>, sync: SyncOutcome)
    : (effects: seq<AuthEffect>)
    ensures |effects| >= 1
    ensures effects[0] == Publish(if current.Some? then Some(Identity(current.value)) else None)
    ensures current.None? ==> effects == [Publish(None), RemoveToken, SetLoading(false)]
    ensures current.Some? && idToken.None? ==> effects == [Publish(Some(Identity(current.value)))]
    ensures current.Some? && idToken.Some? ==>
      && |effects| >= 4
      && effects[1] == StoreToken(idToken.value)
      && effects[2].SyncRequest? && effects[2].bearer == idToken.value
      && effects[|effects| - 1] == SetLoading(false)
  {
    match current
    case None => [Publish(None), RemoveToken, SetLoading(false)]
    case Some(p) =>
      var first := Publish(Some(Identity(p)));
      match idToken
      case None => [first]
      case Some(t) =>
        var request := SyncRequest(t, p.displayName, p.email, p.photoURL);
        var merged :=
          match sync
          case SyncFailed => []
          case SyncAnswered(role) =>
            [Publish(Some(Identity(p).(role := if role.Some? then Some(RoleFromName(role.value)) else None)))];
        [first, StoreToken(t), request] + merged + [SetLoading(false)]
  }

  /** The store after a sign-in change whose token was obtained: the token is stored, loading
      is over, and the user carries exactly the role the backend sent (none if the sync failed). */
  lemma SignedInOutcome(s: AuthState, p: ProviderUser, t: string, sync: SyncOutcome)
    ensures var r := Replay(s, OnAuthStateChanged(Some(p), Some(t), sync));
      && r.token == Some(t)
      && !r.loading
      && r.user.Some?
      && r.user.value.uid == p.uid
      && r.user.value.email == p.email
      && (sync.SyncFailed? ==> r.user.value.role.None?)
      && (sync.SyncAnswered? && sync.role.Some? ==> r.user.value.role == Some(RoleFromName(sync.role.value)))
      && (sync.SyncAnswered? && sync.role.None? ==> r.user.value.role.None?)
  {
    var first := Publish(Some(Identity(p)));
    var request := SyncRequest(t, p.displayName, p.email, p.photoURL);
    var merged :=
      match sync
      case SyncFailed => []
      case SyncAnswered(role) =>
        [Publish(Some(Identity(p).(role := if role.Some? then Some(RoleFromName(role.value)) else None)))];
    var prefix := [first, StoreToken(t), request];
    assert prefix[1..] == [StoreToken(t), request];
    assert prefix[1..][1..] == [request];
    var s1 := Apply(s, first);
    var s2 := Apply(s1, StoreToken(t));
    assert Replay(s, prefix) == Replay(s1, [StoreToken(t), request]);
    assert Replay(s1, [StoreToken(t), request]) == Replay(s2, [request]);
    assert Replay(s2, [request]) == Replay(s2, []);
    assert Replay(s, prefix) == AuthState(Some(Identity(p)), s.loading, Some(t));
    ReplayConcat(s, prefix, merged + [SetLoading(false)]);
    ReplayConcat(Replay(s, [first, StoreToken(t), request]), merged, [SetLoading(false)]);
    assert [first, StoreToken(t), request] + (merged + [SetLoading(false)])
      == OnAuthStateChanged(Some(p), Some(t), sync);
  }

  /** Replaying two effect lists in turn is replaying their concatenation. */
  lemma {:induction false} ReplayConcat(s: AuthState, a: seq<AuthEffect>, b: seq<AuthEffect>)
    ensures Replay(s, a + b) == Replay(Replay(s, a), b)
    decreases |a|
  {
    if |a| > 0 {
      assert (a + b)[0] == a[0];
      assert (a + b)[1..] == a[1..] + b;
      ReplayConcat(Apply(s, a[0]), a[1..], b);
    } else {
      assert a + b == b;
    }
  }

  /** Signing out clears the user and the stored token and ends loading. */
  lemma SignedOutOutcome(s: AuthState)
    ensures Replay(s, OnAuthStateChanged(None, None, SyncFailed)) == AuthState(None, false, None)
    ensures forall t, sync :: OnAuthStateChanged(None, t, sync) == OnAuthStateChanged(None, None, SyncFailed)
  {
  }

  /** The token is written to storage before the sync request that carries it is sent. */
  lemma TokenStoredBeforeSync(current: Option<ProviderUser>, idToken: Option<string>, sync: SyncOutcome, j: nat)
    requires j < |OnAuthStateChanged(current, idToken, sync)|
    requires OnAuthStateChanged(current, idToken, sync)[j].SyncRequest?
    ensures exists i :: 0 <= i < j && OnAuthStateChanged(current, idToken, sync)[i] == StoreToken(OnAuthStateChanged(current, idToken, sync)[j].bearer)
  {
    var e := OnAuthStateChanged(current, idToken, sync);
    assert e[1] == StoreToken(idToken.value);
  }

  /** When `getIdToken` rejects, the callback stops after the first publication: no token is
      stored, no sync is sent, and `loading` keeps the value it had. */
  lemma TokenFailureLeavesLoading(s: AuthState, p: ProviderUser, sync: SyncOutcome)
    ensures var r := Replay(s, OnAuthStateChanged(Some(p), None, sync));
      r.loading == s.loading && r.token == s.token && r.user == Some(Identity(p))
  {
  }
}
