/**
 * The session store (contexts/AuthContext.tsx): the signed-in user, a
 * loading flag, and the ordered writes and removals it makes on the shared
 * token store. The outcome of each backend call is an input.
 */
module Auth {
  import opened Wrappers
  import opened KudosTypes
  import opened JsText
  import opened Storage

  const InvalidCredentialsMessage: string := "Invalid username or password"
  const NetworkErrorMessage: string := "Network error. Please check your connection."

  /**
   * The text of the error notice after a failed login. `None` stands for
   * JavaScript's `undefined`: a body whose `non_field_errors` is an empty
   * list selects that list's missing first element.
   */
  function LoginErrorMessage(e: ApiError): (m: Option<string>)
    ensures m.None? <==> !Present(Detail(e)) && NonFieldErrors(e) == Some([])
    ensures Present(Detail(e)) ==> m == Detail(e)
    ensures !Present(Detail(e)) && NonFieldErrors(e).Some? && NonFieldErrors(e).value != [] ==>
      m == Some(NonFieldErrors(e).value[0])
    ensures e.response.None? ==>
      m == Some(if Truthy(e.message) then NetworkErrorMessage else InvalidCredentialsMessage)
    ensures e.response.Some? && !Present(Detail(e)) && NonFieldErrors(e).None? ==>
      m == Some(InvalidCredentialsMessage)
  {
    if Present(Detail(e)) then Detail(e)
    else if NonFieldErrors(e).Some? then
      var errors := NonFieldErrors(e).value;
      if |errors| > 0 then Some(errors[0]) else None
    else if Truthy(e.message) && e.response.None? then Some(NetworkErrorMessage)
    else Some(InvalidCredentialsMessage)
  }

  class AuthProvider {
    /** The shared local storage holding the two tokens. */
    const store: TokenStore
    var user: Option<User>
    var loading: bool

    /** The provider's initial state: no user, still loading. */
    constructor (store: TokenStore)
      ensures this.store == store && user == None && loading
    {
      this.store := store;
      user := None;
      loading := true;
    }

    /**
     * The mount-time load. Fetches the current user only when an access
     * token is present (`fetched`); `fetch` is that call's outcome.
     */
    method LoadUser(fetch: Result<User, ApiError>) returns (fetched: bool)
      modifies this, store
      ensures fetched <==> Present(old(store.GetItem(AccessTokenKey)))
      ensures !fetched ==> store.entries == old(store.entries) && user == old(user)
      ensures fetched && fetch.Success? ==> store.entries == old(store.entries) && user == Some(fetch.value)
      ensures fetched && fetch.Failure? ==> store.entries == Cleared(old(store.entries)) && user == old(user)
      ensures !loading
    {
      var accessToken := store.GetItem(AccessTokenKey);
      if !Present(accessToken) {
        loading := false;
        return false;
      }
      fetched := true;
      match fetch {
        case Success(userData) =>
          user := Some(userData);
        case Failure(_) =>
          store.RemoveItem(AccessTokenKey);
          store.RemoveItem(RefreshTokenKey);
      }
      loading := false;
    }

    /**
     * Login: `exchange` is the outcome of posting the credentials, `fetch`
     * that of the user fetch that follows a successful exchange. Never
     * fails past its boundary; `errorMessage` is the error notice's text.
     */
    method Login(exchange: Result<TokenResponse, ApiError>, fetch: Result<User, ApiError>)
      returns (ok: bool, errorMessage: Option<string>)
      modifies this, store
      ensures ok <==> exchange.Success? && fetch.Success?
      ensures exchange.Failure? ==>
        store.entries == old(store.entries) && user == old(user) && errorMessage == LoginErrorMessage(exchange.error)
      ensures exchange.Success? ==>
        store.entries == old(store.entries)[AccessTokenKey := exchange.value.access][RefreshTokenKey := exchange.value.refresh]
      ensures ok ==> user == Some(fetch.value) && errorMessage == None
      ensures exchange.Success? && fetch.Failure? ==>
        user == old(user) && errorMessage == LoginErrorMessage(fetch.error)
      ensures loading == old(loading)
    {
      if exchange.Failure? {
        return false, LoginErrorMessage(exchange.error);
      }
      var tokens := exchange.value;
      store.SetItem(AccessTokenKey, tokens.access);
      store.SetItem(RefreshTokenKey, tokens.refresh);
      if fetch.Failure? {
        return false, LoginErrorMessage(fetch.error);
      }
      user := Some(fetch.value);
      ok, errorMessage := true, None;
    }

    /** Logout: both tokens removed and the user cleared, with no backend call. */
    method Logout()
      modifies this, store
      ensures store.entries == Cleared(old(store.entries))
      ensures user == None && loading == old(loading)
    {
      store.RemoveItem(AccessTokenKey);
      store.RemoveItem(RefreshTokenKey);
      user := None;
    }

    /** Re-fetch the user; a failed fetch leaves the user as it was. */
    method RefreshUser(fetch: Result<User, ApiError>)
      modifies this
      ensures user == (if fetch.Success? then Some(fetch.value) else old(user))
      ensures loading == old(loading)
    {
      if fetch.Success? {
        user := Some(fetch.value);
      }
    }
  }

  /** After a logout, a reload of the page finds no access token and fetches nothing. */
  method LogoutThenReload(store: TokenStore, fetch: Result<User, ApiError>)
    modifies store
  {
    var session := new AuthProvider(store);
    session.Logout();
    var reloaded := new AuthProvider(store);
    var fetched := reloaded.LoadUser(fetch);
    assert !fetched && reloaded.user == None && !reloaded.loading;
  }
}
