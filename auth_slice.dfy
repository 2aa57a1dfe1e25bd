/**
 * features/auth/authSlice.ts: the admin session (tokens, the signed-in user, the e-mail of a
 * password-reset flow in progress), mirrored into the browser's `localStorage`.
 *
 * `localStorage` is the `storage` map. Whether `window` exists (false while rendering on the
 * server) is `hasWindow`. `JSON.stringify` and `JSON.parse` of the stored user are the
 * parameters `stringify` and `parse`; `parse` yields `None` where `JSON.parse` throws.
 */
module AuthSlice {
  import opened Wrappers
  import opened Strings

  /** The `User` record declared in authSlice.ts. */
  datatype AuthUser = AuthUser(email: string, name: string, role: string)

  /** The `setCredentials` payload; `user` is optional. */
  datatype Credentials = Credentials(accessToken: string, refreshToken: string, user: Option<AuthUser>)

  datatype AuthState = AuthState(
    isAuthenticated: bool, accessToken: Option<string>, refreshToken: Option<string>,
    user: Option<AuthUser>, forgotPasswordEmail: Option<string>)

  const InitialState := AuthState(false, None, None, None, None)

  const AccessTokenKey := "access_token"
  const RefreshTokenKey := "refresh_token"
  const UserKey := "user"

  /** `localStorage.getItem(key)`: the stored string, or null. */
  function GetItem(storage: map<string, string>, key: string): (v: Option<string>)
    ensures v.Some? <==> key in storage
    ensures v.Some? ==> v.value == storage[key]
  {
    if key in storage then Some(storage[key]) else None
  }

  class AuthStore {
    var isAuthenticated: bool
    var accessToken: Option<string>
    var refreshToken: Option<string>
    var user: Option<AuthUser>
    var forgotPasswordEmail: Option<string>
    var storage: map<string, string>
    const hasWindow: bool
    const stringify: AuthUser -> string
    const parse: string -> Option<AuthUser>

    function State(): AuthState
      reads this
    {
      AuthState(isAuthenticated, accessToken, refreshToken, user, forgotPasswordEmail)
    }

    /** A store in its initial state over the given browser storage. */
    constructor (hasWindow: bool, stringify: AuthUser -> string, parse: string -> Option<AuthUser>, storage: map<string, string>)
      ensures State() == InitialState && this.storage == storage
      ensures this.hasWindow == hasWindow && this.stringify == stringify && this.parse == parse
    {
      this.hasWindow, this.stringify, this.parse := hasWindow, stringify, parse;
      this.storage := storage;
      isAuthenticated, accessToken, refreshToken, user, forgotPasswordEmail := false, None, None, None, None;
    }

    /**
     * Stores both tokens and marks the session authenticated; the user is replaced only when
     * the payload has one. With a window, the same values are written to storage.
     */
    method SetCredentials(c: Credentials)
      modifies this
      ensures State() == old(State()).(
        accessToken := Some(c.accessToken), refreshToken := Some(c.refreshToken), isAuthenticated := true,
        user := if c.user.Some? then c.user else old(user))
      ensures !hasWindow ==> storage == old(storage)
      ensures hasWindow ==>
        var tokens := old(storage)[AccessTokenKey := c.accessToken][RefreshTokenKey := c.refreshToken];
        storage == if c.user.Some? then tokens[UserKey := stringify(c.user.value)] else tokens
    {
      accessToken := Some(c.accessToken);
      refreshToken := Some(c.refreshToken);
      isAuthenticated := true;
      if c.user.Some? {
        user := c.user;
      }
      if hasWindow {
        storage := storage[AccessTokenKey := c.accessToken];
        storage := storage[RefreshTokenKey := c.refreshToken];
        if c.user.Some? {
          storage := storage[UserKey := stringify(c.user.value)];
        }
      }
    }

    method SetUser(u: AuthUser)
      modifies this
      ensures State() == old(State()).(user := Some(u))
      ensures storage == if hasWindow then old(storage)[UserKey := stringify(u)] else old(storage)
    {
      user := Some(u);
      if hasWindow {
        storage := storage[UserKey := stringify(u)];
      }
    }

    method SetForgotPasswordEmail(email: string)
      modifies this
      ensures State() == old(State()).(forgotPasswordEmail := Some(email)) && storage == old(storage)
    {
      forgotPasswordEmail := Some(email);
    }

    method ClearForgotPasswordEmail()
      modifies this
      ensures State() == old(State()).(forgotPasswordEmail := None) && storage == old(storage)
    {
      forgotPasswordEmail := None;
    }

    /** Back to the initial state; with a window, the three session keys leave storage and no other key changes. */
    method Logout()
      modifies this
      ensures State() == InitialState
      ensures storage == if hasWindow then old(storage) - {AccessTokenKey, RefreshTokenKey, UserKey} else old(storage)
      ensures hasWindow ==> AccessTokenKey !in storage && RefreshTokenKey !in storage && UserKey !in storage
    {
      isAuthenticated, accessToken, refreshToken, user, forgotPasswordEmail := false, None, None, None, None;
      if hasWindow {
        storage := storage - {AccessTokenKey, RefreshTokenKey, UserKey};
      }
    }

    /**
     * Restores the session from storage: only when both stored tokens are present and
     * non-empty. The user is restored only when a non-empty stored string parses; otherwise it
     * stays as it was. Nothing else changes, and storage is only read.
     */
    method InitializeAuth()
      modifies this
      ensures storage == old(storage)
      ensures var at, rt, us := GetItem(storage, AccessTokenKey), GetItem(storage, RefreshTokenKey), GetItem(storage, UserKey);
        if hasWindow && Truthy(at) && Truthy(rt) then
          State() == old(State()).(
            accessToken := at, refreshToken := rt, isAuthenticated := true,
            user := if Truthy(us) && parse(us.value).Some? then parse(us.value) else old(user))
        else State() == old(State())
    {
      if hasWindow {
        var at := GetItem(storage, AccessTokenKey);
        var rt := GetItem(storage, RefreshTokenKey);
        var us := GetItem(storage, UserKey);
        if Truthy(at) && Truthy(rt) {
          accessToken := at;
          refreshToken := rt;
          isAuthenticated := true;
          if Truthy(us) {
            var parsed := parse(us.value);
            if parsed.Some? {
              user := parsed;
            }
          }
        }
      }
    }
  }

  /**
   * A page reload after signing in: `setCredentials` on a store, then a fresh store over the
   * storage it left runs `initializeAuth`. The tokens and the authenticated flag come back,
   * and so does the user when `parse` undoes `stringify` on it (`JSON.stringify` of an object
   * is never the empty string).
   */
  method ReloadAfterSignIn(a: AuthStore, c: Credentials) returns (b: AuthStore)
    requires a.hasWindow
    requires c.accessToken != "" && c.refreshToken != ""
    modifies a
    ensures fresh(b) && b.storage == a.storage
    ensures b.isAuthenticated && b.accessToken == a.accessToken == Some(c.accessToken)
    ensures b.refreshToken == a.refreshToken == Some(c.refreshToken)
    ensures b.forgotPasswordEmail.None?
    ensures c.user.Some? && a.stringify(c.user.value) != "" && a.parse(a.stringify(c.user.value)) == c.user ==>
      b.user == c.user
  {
    a.SetCredentials(c);
    b := new AuthStore(a.hasWindow, a.stringify, a.parse, a.storage);
    b.InitializeAuth();
  }
}
