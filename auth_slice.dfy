/** The client's session store: the reducer cases for registration, login, logout and the
    session check, and `setUser`. The request thunks themselves are I/O; only the error
    message they hand to the rejected case is modelled. */
module AuthSlice {
  import opened Wrappers
  import opened Session

  /** The body of a fulfilled auth response. Registration responses carry no `user`. */
  datatype AuthResponse = AuthResponse(success: bool, message: Option<string>, user: Option<SessionUser>)

  const RegisterFallback := "Registration failed"
  const LoginFallback := "Login failed"
  const LogoutFallback := "Logout failed"
  const CheckAuthFallback := "Auth check failed"

  /** `a || b` on optional strings: an absent or empty string falls through. */
  function OrElse(a: Option<string>, b: string): (r: string)
    ensures a.Some? && a.value != "" ==> r == a.value
    ensures (a.None? || a.value == "") ==> r == b
  {
    if a.Some? && a.value != "" then a.value else b
  }

  /** A thunk's rejection message: the server's message if present, else the transport
      error's message, else the thunk's fixed fallback. */
  function RejectionMessage(responseMessage: Option<string>, errorMessage: Option<string>, fallback: string): (r: string)
    ensures fallback != "" ==> r != ""
    ensures r == fallback || Some(r) == responseMessage || Some(r) == errorMessage
    ensures responseMessage.Some? && responseMessage.value != "" ==> r == responseMessage.value
    ensures (responseMessage.None? || responseMessage.value == "") && errorMessage.Some? && errorMessage.value != ""
            ==> r == errorMessage.value
  {
    OrElse(responseMessage, OrElse(errorMessage, fallback))
  }

  class AuthState {
    var isAuthenticated: bool
    var isLoading: bool
    var user: Option<SessionUser>
    var error: Option<string>

    /** A user is only ever held together with the authenticated flag. The converse does
        not hold: a successful registration authenticates without a user. */
    predicate Valid()
      reads this
    {
      user.Some? ==> isAuthenticated
    }

    /** `initialState`. */
    constructor ()
      ensures Valid()
      ensures !isAuthenticated && isLoading && user == None && error == None
    {
      isAuthenticated := false;
      isLoading := true;
      user := None;
      error := None;
    }

    /** `setUser`: the flag follows the payload's truthiness. */
    method SetUser(payload: Option<SessionUser>)
      requires Valid()
      modifies this
      ensures Valid()
      ensures user == payload && isAuthenticated == payload.Some?
      ensures isLoading == old(isLoading) && error == old(error)
    {
      user := payload;
      isAuthenticated := payload.Some?;
    }

    /** The pending case of registration, login and the session check. */
    method Pending()
      requires Valid()
      modifies this
      ensures Valid()
      ensures isLoading && error == None
      ensures isAuthenticated == old(isAuthenticated) && user == old(user)
    {
      isLoading := true;
      error := None;
    }

    /** The rejected case of registration, login and the session check:
        `payload?.message` becomes the error. */
    method Rejected(payloadMessage: Option<string>)
      requires Valid()
      modifies this
      ensures Valid()
      ensures !isLoading && user == None && !isAuthenticated && error == payloadMessage
    {
      isLoading := false;
      user := None;
      isAuthenticated := false;
      error := payloadMessage;
    }

    method RegisterFulfilled(payload: AuthResponse)
      requires Valid()
      modifies this
      ensures Valid()
      ensures !isLoading && isAuthenticated == payload.success
      ensures user == (if payload.success then payload.user else None)
      ensures error == (if payload.success then None else payload.message)
    {
      isLoading := false;
      user := if payload.success then payload.user else None;
      isAuthenticated := payload.success;
      error := if payload.success then None else payload.message;
    }

    /** On success the error is left as it was; on failure the message is recorded. */
    method LoginFulfilled(payload: AuthResponse)
      requires Valid()
      modifies this
      ensures Valid()
      ensures !isLoading && isAuthenticated == payload.success
      ensures user == (if payload.success then payload.user else None)
      ensures error == (if payload.success then old(error) else payload.message)
    {
      isLoading := false;
      if payload.success {
        user := payload.user;
        isAuthenticated := true;
      } else {
        user := None;
        isAuthenticated := false;
        error := payload.message;
      }
    }

    /** Logout has only a fulfilled case: it clears the session. */
    method LogoutFulfilled()
      requires Valid()
      modifies this
      ensures Valid()
      ensures !isLoading && user == None && !isAuthenticated && error == None
    {
      isLoading := false;
      user := None;
      isAuthenticated := false;
      error := None;
    }

    /** The session check always clears the error, whatever the outcome. */
    method CheckAuthFulfilled(payload: AuthResponse)
      requires Valid()
      modifies this
      ensures Valid()
      ensures !isLoading && isAuthenticated == payload.success && error == None
      ensures user == (if payload.success then payload.user else None)
    {
      isLoading := false;
      user := if payload.success then payload.user else None;
      isAuthenticated := payload.success;
      error := None;
    }
  }
}
