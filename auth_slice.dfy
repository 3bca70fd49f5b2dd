/** The `auth` slice of `Frontend/src/utils/authSlice.js`: four state fields and the
    reducer cases of the four async thunks `registerUser`, `login`, `authUser` and
    `logout`. Each case handler assigns some fields in place; every method below states
    the whole new state. The thunks' HTTP calls are not part of this model: a fulfilled
    action carries the response data and a rejected one the value given to
    `rejectWithValue`, the error's message. */
module AuthSlice {
  import opened JsValue

  class AuthState {
    var user: Json
    var error: Json
    var loading: bool
    var isAuthenticated: bool

    /** `initialState`. */
    constructor ()
      ensures user == Null && error == Null && loading && !isAuthenticated
    {
      user := Null;
      error := Null;
      loading := true;
      isAuthenticated := false;
    }

    /** Any of the four `pending` cases, which are identical: loading starts and the error
        is cleared; the user and the authentication flag are left alone. */
    method Pending()
      modifies this
      ensures loading && error == Null
      ensures user == old(user) && isAuthenticated == old(isAuthenticated)
    {
      loading := true;
      error := Null;
    }

    /** `registerUser.fulfilled`. It assigns `action.error`, not `state.error`, so the
        state's error is left as it was. */
    method RegisterUserFulfilled(payload: Json)
      modifies this
      ensures user == payload && !loading && isAuthenticated == Truthy(payload)
      ensures error == old(error)
    {
      user := payload;
      loading := false;
      isAuthenticated := Truthy(payload);
    }

    /** `registerUser.rejected`: the authentication flag becomes the truthiness of the
        rejection payload, so a non-empty error message sets it. */
    method RegisterUserRejected(payload: Json)
      modifies this
      ensures error == payload && !loading && user == Null
      ensures isAuthenticated == Truthy(payload)
    {
      error := payload;
      loading := false;
      user := Null;
      isAuthenticated := Truthy(payload);
    }

    /** `login.fulfilled`: authenticated exactly when the payload is truthy. */
    method LoginFulfilled(payload: Json)
      modifies this
      ensures isAuthenticated == Truthy(payload) && user == payload
      ensures !loading && error == Null
    {
      isAuthenticated := Truthy(payload);
      user := payload;
      loading := false;
      error := Null;
    }

    /** `login.rejected`: signed out, with the error stored. */
    method LoginRejected(payload: Json)
      modifies this
      ensures error == payload && !loading && user == Null && !isAuthenticated
    {
      error := payload;
      loading := false;
      user := Null;
      isAuthenticated := false;
    }

    /** `authUser.fulfilled`: authenticated whatever the payload is. */
    method AuthUserFulfilled(payload: Json)
      modifies this
      ensures isAuthenticated && !loading && user == payload && error == Null
    {
      isAuthenticated := true;
      loading := false;
      user := payload;
      error := Null;
    }

    /** `authUser.rejected`: signed out, with the error stored. */
    method AuthUserRejected(payload: Json)
      modifies this
      ensures error == payload && !loading && user == Null && !isAuthenticated
    {
      error := payload;
      loading := false;
      user := Null;
      isAuthenticated := false;
    }

    /** `logout.fulfilled`: signed out, no error. */
    method LogoutFulfilled()
      modifies this
      ensures !loading && error == Null && user == Null && !isAuthenticated
    {
      loading := false;
      error := Null;
      user := Null;
      isAuthenticated := false;
    }

    /** `logout.rejected`: signed out locally all the same, with the error stored. */
    method LogoutRejected(payload: Json)
      modifies this
      ensures !loading && error == payload && user == Null && !isAuthenticated
    {
      loading := false;
      error := payload;
      isAuthenticated := false;
      user := Null;
    }
  }

  /** A registration that fails with an error message leaves the store reporting an
      authenticated session without a user. */
  method RejectedRegistrationAuthenticates(message: string) returns (state: AuthState)
    requires message != ""
    ensures state.isAuthenticated && state.user == Null && state.error == Str(message)
    ensures !state.loading
  {
    state := new AuthState();
    state.Pending();
    state.RegisterUserRejected(Str(message));
  }
}
