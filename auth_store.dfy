// The client's auth store (a zustand store): whether the user is signed in,
// the two tokens and the profile. Each action replaces some of the four
// fields at once. A JavaScript null is None; the profile is the
// UserProfileResponse the API returns.

module AuthStore {
  import opened Common
  import UserService

  /** The four fields of the store, as one value. */
  datatype AuthState = AuthState(
    isAuth: bool,
    accessToken: Option<string>,
    refreshToken: Option<string>,
    user: Option<UserService.UserProfile>)

  /** The tokens object that login and setTokens receive. */
  datatype Tokens = Tokens(accessToken: Option<string>, refreshToken: Option<string>)

  /** A JavaScript string that tests true: present and not empty. */
  predicate Truthy(s: Option<string>)
  {
    s.Some? && s.value != ""
  }

  /** The state the store is created with, and the one logout leaves. */
  const SignedOut: AuthState := AuthState(false, None, None, None)

  /** login: set({...tokens, user, isAuth: true}). */
  function Login(s: AuthState, tokens: Tokens, user: UserService.UserProfile): (t: AuthState)
    ensures t.isAuth && t.user == Some(user)
    ensures t.accessToken == tokens.accessToken && t.refreshToken == tokens.refreshToken
  {
    AuthState(true, tokens.accessToken, tokens.refreshToken, Some(user))
  }

  /** logout: all four fields back to the initial values. */
  function Logout(s: AuthState): (t: AuthState)
    ensures !t.isAuth && t.accessToken.None? && t.refreshToken.None? && t.user.None?
  {
    SignedOut
  }

  /** setTokens: set({...tokens}); the other fields are merged, not reset. */
  function SetTokens(s: AuthState, tokens: Tokens): (t: AuthState)
    ensures t.accessToken == tokens.accessToken && t.refreshToken == tokens.refreshToken
    ensures t.isAuth == s.isAuth && t.user == s.user
  {
    s.(accessToken := tokens.accessToken, refreshToken := tokens.refreshToken)
  }

  /** Logging out twice is logging out once, and whatever came before, the
      store ends as it started. */
  lemma LogoutIdempotent(s: AuthState)
    ensures Logout(Logout(s)) == Logout(s)
    ensures Logout(s) == SignedOut
  {
  }

  /** A login is undone by a logout: nothing of the session survives. */
  lemma LogoutUndoesLogin(s: AuthState, tokens: Tokens, user: UserService.UserProfile)
    ensures Logout(Login(s, tokens, user)) == Logout(s)
  {
  }

  /** setTokens does not sign the user in: after a logout it leaves tokens
      present while isAuth stays false and no user is known. */
  lemma SetTokensAfterLogout(s: AuthState, tokens: Tokens)
    requires Truthy(tokens.accessToken)
    ensures var t := SetTokens(Logout(s), tokens);
      Truthy(t.accessToken) && !t.isAuth && t.user.None?
  {
  }

  /** The store object; the actions replace its fields. */
  class Store {
    var isAuth: bool
    var accessToken: Option<string>
    var refreshToken: Option<string>
    var user: Option<UserService.UserProfile>

    function State(): AuthState
      reads this
    {
      AuthState(isAuth, accessToken, refreshToken, user)
    }

    /** The initial state: not signed in, no tokens, no user. */
    constructor ()
      ensures State() == SignedOut
    {
      isAuth, accessToken, refreshToken, user := false, None, None, None;
    }

    method DoLogin(tokens: Tokens, u: UserService.UserProfile)
      modifies this
      ensures State() == Login(old(State()), tokens, u)
    {
      accessToken, refreshToken := tokens.accessToken, tokens.refreshToken;
      user := Some(u);
      isAuth := true;
    }

    method DoLogout()
      modifies this
      ensures State() == Logout(old(State()))
    {
      accessToken, refreshToken, user := None, None, None;
      isAuth := false;
    }

    method DoSetTokens(tokens: Tokens)
      modifies this
      ensures State() == SetTokens(old(State()), tokens)
    {
      accessToken, refreshToken := tokens.accessToken, tokens.refreshToken;
    }
  }
}
