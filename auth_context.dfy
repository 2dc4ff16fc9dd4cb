// src/contexts/AuthContext.tsx: the client's session state, kept in React state
// and mirrored in localStorage. The storage is a map from key to string; JSON
// (de)serialisation of the user and the API calls are parameters.
module AuthContext {
  import opened Wrappers

  const TokenKey: string := "auth_token"
  const UserKey: string := "auth_user"
  const OutsideProvider: string := "useAuth must be used within an AuthProvider"

  /** JavaScript truthiness of an optional string: present and not empty. */
  predicate Truthy(s: Option<string>) { s.Some? && s.value != "" }

  /** isAuthenticated: a user and a non-empty token. */
  predicate IsAuthenticated<U>(user: Option<U>, token: Option<string>)
  {
    user.Some? && Truthy(token)
  }

  /** `JSON.parse` of the saved user: it throws, or yields a user or null. */
  datatype Parse<U> = Unparsable | Parsed(user: Option<U>)

  /** How an API call ended. */
  datatype Call<T> = Fulfilled(value: T) | Rejected

  datatype LoginResponse<U> = LoginResponse(user: U, token: string)

  function Lookup(storage: map<string, string>, key: string): Option<string>
  {
    if key in storage then Some(storage[key]) else None
  }

  /** useAuth: the context value inside a provider, an error outside one. */
  function UseAuth<C>(context: Option<C>): (r: Result<C, string>)
    ensures context.Some? <==> r.Success?
    ensures r.Success? ==> r.value == context.value
    ensures r.Failure? ==> r.error == OutsideProvider
  {
    if context.None? then Failure(OutsideProvider) else Success(context.value)
  }

  class Provider<U(==)> {
    var user: Option<U>
    var token: Option<string>
    var isLoading: bool
    var storage: map<string, string>

    /** The first render: nobody signed in, loading, storage as the browser has it. */
    constructor(saved: map<string, string>)
      ensures user.None? && token.None? && isLoading && storage == saved
    {
      user := None;
      token := None;
      isLoading := true;
      storage := saved;
    }

    /**
     * The mount effect: with both keys present and non-empty the session is
     * restored; if the saved user cannot be parsed both keys are removed and
     * the user stays unset, though the token has already been taken over.
     * Loading ends in every case.
     */
    method Restore(parse: string -> Parse<U>)
      modifies this
      ensures !isLoading
      ensures var t, u := Lookup(old(storage), TokenKey), Lookup(old(storage), UserKey);
        if Truthy(t) && Truthy(u) && parse(u.value).Parsed? then
          token == t && user == parse(u.value).user && storage == old(storage)
        else if Truthy(t) && Truthy(u) then
          token == t && user == old(user) && storage == old(storage) - {TokenKey, UserKey}
        else
          token == old(token) && user == old(user) && storage == old(storage)
    {
      var savedToken := Lookup(storage, TokenKey);
      var savedUser := Lookup(storage, UserKey);
      if Truthy(savedToken) && Truthy(savedUser) {
        token := savedToken;
        match parse(savedUser.value) {
          case Parsed(u) =>
            user := u;
          case Unparsable =>
            // the token was set before the parse threw, and it stays set
            storage := storage - {TokenKey};
            storage := storage - {UserKey};
        }
      }
      isLoading := false;
    }

    /**
     * login: on success the user and token are set and both keys saved; a
     * failure is rethrown (Failure) and leaves the session as it was. Loading
     * is false afterwards either way.
     */
    method Login(call: Call<LoginResponse<U>>, stringify: U -> string) returns (r: Outcome<()>)
      modifies this
      ensures !isLoading
      ensures call.Fulfilled? <==> r.Pass?
      ensures call.Fulfilled? ==> user == Some(call.value.user) && token == Some(call.value.token)
      ensures call.Fulfilled? ==> storage == old(storage)[TokenKey := call.value.token][UserKey := stringify(call.value.user)]
      ensures call.Rejected? ==> user == old(user) && token == old(token) && storage == old(storage)
    {
      isLoading := true;
      match call {
        case Fulfilled(response) =>
          user := Some(response.user);
          token := Some(response.token);
          storage := storage[TokenKey := response.token];
          storage := storage[UserKey := stringify(response.user)];
          r := Pass;
        case Rejected =>
          r := Fail(());
      }
      isLoading := false;
    }

    /** logout: everything cleared; the backend is told (the result) only when a token was held. */
    method Logout() returns (backendCalled: bool)
      modifies this
      ensures user.None? && token.None?
      ensures storage == old(storage) - {TokenKey, UserKey}
      ensures TokenKey !in storage && UserKey !in storage
      ensures !IsAuthenticated(user, token)
      ensures backendCalled <==> Truthy(old(token))
      ensures isLoading == old(isLoading)
    {
      backendCalled := Truthy(token);
      user := None;
      token := None;
      storage := storage - {TokenKey};
      storage := storage - {UserKey};
    }

    /** refreshUser: nothing without a token; otherwise the profile replaces the user, or the failure is rethrown. */
    method RefreshUser(call: Call<U>, stringify: U -> string) returns (r: Outcome<()>)
      modifies this
      ensures !Truthy(old(token)) ==> r.Pass? && user == old(user) && storage == old(storage)
      ensures Truthy(old(token)) && call.Fulfilled? ==>
        r.Pass? && user == Some(call.value) && storage == old(storage)[UserKey := stringify(call.value)]
      ensures Truthy(old(token)) && call.Rejected? ==> r.Fail? && user == old(user) && storage == old(storage)
      ensures token == old(token) && isLoading == old(isLoading)
    {
      if !Truthy(token) {
        return Pass;
      }
      match call {
        case Fulfilled(u) =>
          user := Some(u);
          storage := storage[UserKey := stringify(u)];
          r := Pass;
        case Rejected =>
          r := Fail(());
      }
    }

    /**
     * The token check effect, run once a token is held and loading has ended:
     * a failed refresh logs out. Afterwards a session survives only if the
     * profile call succeeded.
     */
    method VerifyToken(call: Call<U>, stringify: U -> string)
      modifies this
      ensures !(Truthy(old(token)) && !old(isLoading)) ==>
        user == old(user) && token == old(token) && storage == old(storage)
      ensures Truthy(old(token)) && !old(isLoading) && call.Rejected? ==>
        user.None? && token.None? && storage == old(storage) - {TokenKey, UserKey}
      ensures Truthy(old(token)) && !old(isLoading) && call.Rejected? ==>
        !IsAuthenticated(user, token) && TokenKey !in storage && UserKey !in storage
      ensures Truthy(old(token)) && !old(isLoading) && call.Fulfilled? ==>
        user == Some(call.value) && token == old(token) && storage == old(storage)[UserKey := stringify(call.value)]
      ensures Truthy(old(token)) && !old(isLoading) && call.Fulfilled? ==> IsAuthenticated(user, token)
      ensures isLoading == old(isLoading)
    {
      if Truthy(token) && !isLoading {
        var r := RefreshUser(call, stringify);
        if r.Fail? {
          var _ := Logout();
        }
      }
    }
  }

  /** After a successful login with a non-empty token the session is authenticated. */
  method LoginAuthenticates<U(==)>(saved: map<string, string>, response: LoginResponse<U>, stringify: U -> string)
    returns (authenticated: bool)
    requires response.token != ""
    ensures authenticated
  {
    var p := new Provider<U>(saved);
    var _ := p.Login(Fulfilled(response), stringify);
    authenticated := IsAuthenticated(p.user, p.token);
  }
}
