/** The credential store (src/utils/auth.ts): the access token, refresh token and
    cached user kept under fixed keys of the browser's string key/value storage. */
module Credentials {
  import opened Common

  const TokenKey := "oliver_system_token"
  const RefreshTokenKey := "oliver_system_refresh_token"
  const UserKey := "oliver_system_user"

  /** The browser storage the credentials live in, as a string-keyed map. */
  class CredentialStore {
    var entries: map<string, string>

    /** Storage as the page finds it. */
    constructor (initial: map<string, string>)
      ensures entries == initial
    {
      entries := initial;
    }

    /** `getToken`: the stored access token, or absent. */
    function GetToken(): (r: Option<string>)
      reads this
      ensures r.Some? <==> TokenKey in entries
      ensures r.Some? ==> r.value == entries[TokenKey]
    {
      if TokenKey in entries then Some(entries[TokenKey]) else None
    }

    /** `getRefreshToken`: the stored refresh token, or absent. */
    function GetRefreshToken(): (r: Option<string>)
      reads this
      ensures r.Some? <==> RefreshTokenKey in entries
      ensures r.Some? ==> r.value == entries[RefreshTokenKey]
    {
      if RefreshTokenKey in entries then Some(entries[RefreshTokenKey]) else None
    }

    /** `setToken`: the next `getToken` reads `token`; the refresh token and every
        other key are left as they were. */
    method SetToken(token: string)
      modifies this
      ensures entries == old(entries)[TokenKey := token]
      ensures GetToken() == Some(token) && GetRefreshToken() == old(GetRefreshToken())
    {
      entries := entries[TokenKey := token];
    }

    /** `setRefreshToken`: the mirror image of `SetToken`. */
    method SetRefreshToken(token: string)
      modifies this
      ensures entries == old(entries)[RefreshTokenKey := token]
      ensures GetRefreshToken() == Some(token) && GetToken() == old(GetToken())
    {
      entries := entries[RefreshTokenKey := token];
    }

    /** `removeTokens`: delete the token, refresh-token and user keys and no other. */
    method RemoveTokens()
      modifies this
      ensures entries == old(entries) - {TokenKey, RefreshTokenKey, UserKey}
      ensures GetToken().None? && GetRefreshToken().None?
      ensures forall k :: k in old(entries) && k !in {TokenKey, RefreshTokenKey, UserKey} ==>
        k in entries && entries[k] == old(entries)[k]
    {
      entries := entries - {TokenKey};
      entries := entries - {RefreshTokenKey};
      entries := entries - {UserKey};
    }

    /** `isAuthenticated`: a non-empty access token is stored. */
    function IsAuthenticated(): (r: bool)
      reads this
      ensures r <==> TokenKey in entries && entries[TokenKey] != ""
    {
      Truthy(GetToken())
    }
  }
}
