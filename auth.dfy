/** The session store (src/stores/auth.ts): the signed-in user, the last login
    error and a loading flag, kept consistent with the credential store. */
module Auth {
  import opened Common
  import opened Credentials

  datatype User = User(id: string, username: string, email: string, avatar: Option<string>, createdAt: string)

  /** What a successful login returns. */
  datatype AuthResponse = AuthResponse(token: string, refreshToken: string, user: User)

  /** The message shown when a failed login carries no message of its own. */
  const LoginFailedMessage := "登录失败，请检查用户名和密码"

  /** Getter `isAuthenticated`: a user is set and a non-empty token is stored. */
  function IsAuthenticated(user: Option<User>, token: Option<string>): (r: bool)
    ensures r ==> user.Some? && token.Some?
    ensures token == Some("") ==> !r
    ensures r <==> user.Some? && token.Some? && token.value != ""
  {
    user.Some? && Truthy(token)
  }

  /** Getter `username`: the user's name, or the empty string when signed out. */
  function Username(user: Option<User>): (r: string)
    ensures user.None? ==> r == ""
    ensures user.Some? ==> r == user.value.username
  {
    if user.Some? && user.value.username != "" then user.value.username else ""
  }

  /** The error a failed login leaves: the server's message if it is non-empty,
      the fixed default otherwise. */
  function LoginError(message: Option<string>): (r: string)
    ensures r != ""
    ensures Truthy(message) ==> r == message.value
    ensures !Truthy(message) ==> r == LoginFailedMessage
  {
    if Truthy(message) then message.value else LoginFailedMessage
  }

  /** The session store's state; `creds` is the page's one credential store. */
  class AuthStore {
    var user: Option<User>
    var loading: bool
    var error: Option<string>
    const creds: CredentialStore

    constructor (creds: CredentialStore)
      ensures this.creds == creds && user.None? && !loading && error.None?
    {
      this.creds := creds;
      user := None;
      loading := false;
      error := None;
    }

    /** `login`: on success store both tokens and the user and return true; on
        failure record the error and return false, touching neither the user nor
        the tokens. It never throws. */
    method Login(response: Remote<AuthResponse>) returns (ok: bool)
      modifies this, creds
      ensures !loading
      ensures ok <==> response.Ok?
      ensures response.Ok? ==>
        && user == Some(response.value.user)
        && error.None?
        && creds.entries == old(creds.entries)[TokenKey := response.value.token][RefreshTokenKey := response.value.refreshToken]
      ensures response.Fail? ==>
        user == old(user) && error == Some(LoginError(response.message)) && creds.entries == old(creds.entries)
    {
      loading := true;
      error := None;
      if response.Ok? {
        creds.SetToken(response.value.token);
        creds.SetRefreshToken(response.value.refreshToken);
        user := Some(response.value.user);
        ok := true;
      } else {
        error := Some(LoginError(response.message));
        ok := false;
      }
      loading := false;
    }

    /** `logout`: whatever the remote call does, the user and the stored tokens are
        gone afterwards. */
    method Logout(response: Remote<()>)
      modifies this, creds
      ensures user.None? && creds.entries == old(creds.entries) - {TokenKey, RefreshTokenKey, UserKey}
      ensures !IsAuthenticated(user, creds.GetToken())
      ensures loading == old(loading) && error == old(error)
    {
      user := None;
      creds.RemoveTokens();
    }

    /** `fetchCurrentUser`: nothing at all without a stored token; otherwise set the
        fetched user, or on failure drop the user and the tokens. */
    method FetchCurrentUser(response: Remote<User>)
      modifies this, creds
      ensures !Truthy(old(creds.GetToken())) ==>
        user == old(user) && loading == old(loading) && creds.entries == old(creds.entries)
      ensures Truthy(old(creds.GetToken())) && response.Ok? ==>
        user == Some(response.value) && !loading && creds.entries == old(creds.entries)
      ensures Truthy(old(creds.GetToken())) && response.Fail? ==>
        && user.None? && !loading
        && creds.entries == old(creds.entries) - {TokenKey, RefreshTokenKey, UserKey}
      ensures error == old(error)
    {
      if !Truthy(creds.GetToken()) {
        return;
      }
      loading := true;
      if response.Ok? {
        user := Some(response.value);
      } else {
        user := None;
        creds.RemoveTokens();
      }
      loading := false;
    }

    /** `clearError`. */
    method ClearError()
      modifies this`error
      ensures error.None?
    {
      error := None;
    }
  }
}
