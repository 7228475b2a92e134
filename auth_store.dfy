/**
 * The session store of frontend/src/stores/auth.ts: the current user and whether the session
 * counts as authenticated, kept beside the token `localStorage` holds.
 */
module AuthStore {
  import opened Wrappers
  import opened FrontendTypes
  import opened Http

  class Session {
    var user: Option<User>
    var isAuthenticated: bool
    const tokens: TokenStore

    /** The initial state: no user, authenticated exactly when a token is stored. */
    constructor(tokens: TokenStore)
      ensures this.tokens == tokens
      ensures user.None? && isAuthenticated == Filled(tokens.token)
    {
      user := None;
      isAuthenticated := Filled(tokens.token);
      this.tokens := tokens;
    }

    /** `setUser(u)`: store `u`; authenticated exactly when there is one. */
    method SetUser(u: Option<User>)
      modifies this
      ensures user == u && isAuthenticated == u.Some?
    {
      user := u;
      isAuthenticated := u.Some?;
    }

    /** `logout`: forget the token and the user. */
    method Logout()
      modifies this, tokens
      ensures tokens.token.None? && user.None? && !isAuthenticated
    {
      tokens.ClearToken();
      user := None;
      isAuthenticated := false;
    }

    /** `checkAuth`: report whether a token is stored and record it; the user is kept. */
    method CheckAuth() returns (hasToken: bool)
      modifies this
      ensures hasToken == Filled(tokens.token)
      ensures isAuthenticated == hasToken && user == old(user)
    {
      var t := tokens.GetToken();
      hasToken := Filled(t);
      isAuthenticated := hasToken;
    }
  }

  /** After logging out, checking the session finds no token. */
  method LogoutThenCheck(s: Session) returns (hasToken: bool)
    modifies s, s.tokens
    ensures !hasToken && !s.isAuthenticated && s.user.None?
  {
    s.Logout();
    hasToken := s.CheckAuth();
  }
}
