/**
 * The auth store (`useAuthStore`): the session record, the login/logout
 * lifecycle, the role predicates and the persisted projection.
 *
 * `authApi.login` is a reply supplied by the caller, and `setAuthToken` is
 * recorded in a ghost trace of effects, so that the order of binding the token
 * and committing state can be stated.
 */
module Auth {
  import opened Js

  /** The store's state record; `None` and `Null` stand for `null`. */
  datatype AuthState = AuthState(
    user: Option<Obj>,
    token: Value,
    isAuthenticated: bool,
    isLoading: bool,
    error: Option<string>)

  /**
   * How the remote login call settles: resolved with the response body, or
   * rejected with the body's `error` string when the rejection carries one.
   */
  datatype LoginReply = Accepted(data: Obj) | Refused(serverError: Option<string>)

  /** How the promise returned by `login` settles. */
  datatype Settlement = Resolved(user: Obj) | Thrown(message: string)

  /** The persisted slice of the state. */
  datatype Persisted = Persisted(token: Value, user: Option<Obj>)

  /**
   * An observable effect of the store: a `set` that commits a new state,
   * the remote login call, or a call of the token binder `setAuthToken`.
   */
  datatype Effect = Committed(state: AuthState) | Called(username: string, password: string) | Bound(token: Value)

  /** The state the store is created with. */
  const Initial := AuthState(None, Null, false, false, None)

  /** The message used when a rejection carries no usable server message. */
  const LoginFailed := "Login failed"

  /** The first `set` of `login`: loading, and the previous error cleared. */
  function Begin(s: AuthState): (r: AuthState)
    ensures r.isLoading && r.error == None
    ensures r.user == s.user && r.token == s.token && r.isAuthenticated == s.isAuthenticated
  {
    s.(isLoading := true, error := None)
  }

  /** The successful `set` of `login`: the body minus its `token` is the user. */
  function Accept(s: AuthState, data: Obj): (r: AuthState)
    ensures r.isAuthenticated && !r.isLoading && r.error == s.error
    ensures r.token == Get(data, "token")
    ensures r.user.Some? && r.user.value.Keys == data.Keys - {"token"}
    ensures forall k :: k in r.user.value ==> r.user.value[k] == data[k]
  {
    s.(user := Some(Rest(data, "token")), token := Get(data, "token"), isAuthenticated := true, isLoading := false)
  }

  /** `error.response?.data?.error || 'Login failed'`, for a string or absent server message. */
  function FailureMessage(serverError: Option<string>): (message: string)
    ensures message != ""
    ensures serverError.Some? && serverError.value != "" ==> message == serverError.value
    ensures serverError.None? || serverError.value == "" ==> message == LoginFailed
  {
    match serverError
    case Some(m) => if m != "" then m else LoginFailed
    case None => LoginFailed
  }

  /** The failing `set` of `login`: only `error` and `isLoading` change. */
  function Reject(s: AuthState, serverError: Option<string>): (r: AuthState)
    ensures r.error == Some(FailureMessage(serverError)) && !r.isLoading
    ensures r.user == s.user && r.token == s.token && r.isAuthenticated == s.isAuthenticated
  {
    s.(error := Some(FailureMessage(serverError)), isLoading := false)
  }

  /** The state after the remote call of `login` settles. */
  function Settle(s: AuthState, reply: LoginReply): (r: AuthState)
    ensures !r.isLoading
    ensures r.isAuthenticated <==> reply.Accepted? || s.isAuthenticated
    ensures reply.Accepted? ==> r.error == s.error && r.token == Get(reply.data, "token")
    ensures reply.Refused? ==> r.error.Some? && r.error.value != "" && r.user == s.user && r.token == s.token
  {
    match reply
    case Accepted(data) => Accept(s, data)
    case Refused(serverError) => Reject(s, serverError)
  }

  /** What the promise returned by `login` settles with. */
  function Outcome(reply: LoginReply): (r: Settlement)
    ensures r.Resolved? <==> reply.Accepted?
    ensures r.Resolved? ==> r.user.Keys == reply.data.Keys - {"token"}
    ensures r.Thrown? ==> r.message != ""
  {
    match reply
    case Accepted(data) => Resolved(Rest(data, "token"))
    case Refused(serverError) => Thrown(FailureMessage(serverError))
  }

  /** The effects after the remote call settles, in the order they happen. */
  function SettleEffects(s: AuthState, reply: LoginReply): seq<Effect>
  {
    match reply
    case Accepted(data) => [Bound(Get(data, "token")), Committed(Accept(s, data))]
    case Refused(serverError) => [Committed(Reject(s, serverError))]
  }

  /** The `set` of `logout`; `isLoading` and `error` are left alone. */
  function SignOut(s: AuthState): (r: AuthState)
    ensures !r.isAuthenticated && r.user == None && r.token == Null
    ensures r.isLoading == s.isLoading && r.error == s.error
  {
    s.(user := None, token := Null, isAuthenticated := false)
  }

  /** `user?.role === role`: false, and no failure, when there is no user. */
  predicate HasRole(user: Option<Obj>, role: string)
    ensures HasRole(user, role) <==> user.Some? && "role" in user.value && user.value["role"] == Str(role)
  {
    user.Some? && Get(user.value, "role") == Str(role)
  }

  /** `partialize`: the persisted slice is exactly the token and the user. */
  function Partialize(s: AuthState): (p: Persisted)
    ensures p.token == s.token && p.user == s.user
  {
    Persisted(s.token, s.user)
  }

  /**
   * Rehydration: the saved slice merged over the initial state; nothing saved
   * (a missing or unreadable record) gives the initial state.
   */
  function Rehydrate(saved: Option<Persisted>): (r: AuthState)
    ensures !r.isAuthenticated && !r.isLoading && r.error == None
    ensures saved.Some? ==> r.token == saved.value.token && r.user == saved.value.user
    ensures saved.None? ==> r == Initial
  {
    match saved
    case None => Initial
    case Some(p) => Initial.(token := p.token, user := p.user)
  }

  /** The pairing one would expect: authenticated exactly when a token and a user are present. */
  predicate Paired(s: AuthState)
  {
    s.isAuthenticated <==> (s.token != Null && s.token != Undefined && s.user.Some?)
  }

  /** The token last handed to the binder (`null` before any call). */
  ghost function BoundToken(effects: seq<Effect>): Value
  {
    if effects == [] then Null
    else if effects[|effects| - 1].Bound? then effects[|effects| - 1].token
    else BoundToken(effects[..|effects| - 1])
  }

  /** Every commit of an authenticated state comes after its token was handed to the binder. */
  ghost predicate BindsBeforeAuthenticating(effects: seq<Effect>)
  {
    effects == [] ||
    var prior := effects[..|effects| - 1];
    var last := effects[|effects| - 1];
    BindsBeforeAuthenticating(prior) &&
    (last.Committed? && last.state.isAuthenticated ==> BoundToken(prior) == last.state.token)
  }

  /** Appending one effect: how the bound token and the ordering property evolve. */
  lemma AppendEffect(effects: seq<Effect>, e: Effect)
    requires BindsBeforeAuthenticating(effects)
    requires e.Committed? && e.state.isAuthenticated ==> BoundToken(effects) == e.state.token
    ensures BindsBeforeAuthenticating(effects + [e])
    ensures BoundToken(effects + [e]) == if e.Bound? then e.token else BoundToken(effects)
  {
    assert (effects + [e])[..|effects|] == effects;
  }

  class AuthStore {
    var user: Option<Obj>
    var token: Value
    var isAuthenticated: bool
    var isLoading: bool
    var error: Option<string>
    /** Every effect since the store was created, oldest first. */
    ghost var effects: seq<Effect>

    /** The current state record. */
    function State(): AuthState
      reads this
    {
      AuthState(user, token, isAuthenticated, isLoading, error)
    }

    /** The binder holds the current token whenever the store says it is authenticated. */
    ghost predicate Valid()
      reads this
    {
      BindsBeforeAuthenticating(effects) &&
      (isAuthenticated ==> BoundToken(effects) == token)
    }

    /** Creation, rehydrated from what was saved. */
    constructor (saved: Option<Persisted>)
      ensures Valid()
      ensures State() == Rehydrate(saved)
      ensures effects == []
    {
      var s := Rehydrate(saved);
      user, token, isAuthenticated, isLoading, error := s.user, s.token, s.isAuthenticated, s.isLoading, s.error;
      effects := [];
    }

    /** `set(...)`: replace the state and notify, as one effect. */
    method Commit(s: AuthState)
      requires BindsBeforeAuthenticating(effects)
      requires s.isAuthenticated ==> BoundToken(effects) == s.token
      modifies this
      ensures Valid()
      ensures State() == s
      ensures effects == old(effects) + [Committed(s)]
    {
      AppendEffect(effects, Committed(s));
      user, token, isAuthenticated, isLoading, error := s.user, s.token, s.isAuthenticated, s.isLoading, s.error;
      effects := effects + [Committed(s)];
    }

    /** `setAuthToken(t)`: hand a token to the request layer; the state is untouched. */
    method Bind(t: Value)
      requires Valid()
      modifies this`effects
      ensures BindsBeforeAuthenticating(effects) && BoundToken(effects) == t
      ensures effects == old(effects) + [Bound(t)]
    {
      AppendEffect(effects, Bound(t));
      effects := effects + [Bound(t)];
    }

    /** `login` up to its `await`: mark loading, clear the error, then call the server. */
    method LoginStart(username: string, password: string)
      requires Valid()
      modifies this
      ensures Valid()
      ensures State() == Begin(old(State()))
      ensures effects == old(effects) + [Committed(Begin(old(State()))), Called(username, password)]
    {
      Commit(Begin(State()));
      AppendEffect(effects, Called(username, password));
      effects := effects + [Called(username, password)];
    }

    /**
     * `login` after its `await`. On success the token is bound first and then
     * user, token and the flags are committed, and the stored user is returned;
     * on failure only `error` and `isLoading` change and the message is thrown.
     */
    method LoginSettle(reply: LoginReply) returns (outcome: Settlement)
      requires Valid()
      modifies this
      ensures Valid()
      ensures State() == Settle(old(State()), reply)
      ensures outcome == Outcome(reply)
      ensures outcome.Resolved? ==> isAuthenticated && user == Some(outcome.user) && "token" !in outcome.user
      ensures outcome.Thrown? ==>
        error == Some(outcome.message) && user == old(user) && token == old(token) && isAuthenticated == old(isAuthenticated)
      ensures !isLoading
      ensures effects == old(effects) + SettleEffects(old(State()), reply)
    {
      match reply
      case Accepted(data) =>
        Bind(Get(data, "token"));
        Commit(Accept(State(), data));
        outcome := Resolved(Rest(data, "token"));
      case Refused(serverError) =>
        Commit(Reject(State(), serverError));
        outcome := Thrown(FailureMessage(serverError));
    }

    /** `login` run to completion with no other action during its `await`. */
    method Login(username: string, password: string, reply: LoginReply) returns (outcome: Settlement)
      requires Valid()
      modifies this
      ensures Valid()
      ensures State() == Settle(Begin(old(State())), reply)
      ensures outcome == Outcome(reply)
      ensures effects == old(effects) + [Committed(Begin(old(State()))), Called(username, password)]
                                      + SettleEffects(Begin(old(State())), reply)
    {
      LoginStart(username, password);
      outcome := LoginSettle(reply);
    }

    /** `logout`: unbind the token, then clear user, token and the flag. */
    method Logout()
      requires Valid()
      modifies this
      ensures Valid()
      ensures State() == SignOut(old(State()))
      ensures effects == old(effects) + [Bound(Null), Committed(SignOut(old(State())))]
    {
      Bind(Null);
      Commit(SignOut(State()));
    }

    /** `clearError`: only `error` changes. */
    method ClearError()
      requires Valid()
      modifies this
      ensures Valid()
      ensures State() == old(State()).(error := None)
      ensures effects == old(effects) + [Committed(State())]
    {
      Commit(State().(error := None));
    }

    /** `setUser`: only `user` changes; the authentication flag is not revisited. */
    method SetUser(u: Option<Obj>)
      requires Valid()
      modifies this
      ensures Valid()
      ensures State() == old(State()).(user := u)
      ensures effects == old(effects) + [Committed(State())]
    {
      Commit(State().(user := u));
    }

    /** `isAdmin()`: never fails, false without a user. */
    predicate IsAdmin()
      reads this
      ensures IsAdmin() <==> user.Some? && "role" in user.value && user.value["role"] == Str("admin")
    {
      HasRole(user, "admin")
    }

    /** `isAgent()`: never fails, false without a user. */
    predicate IsAgent()
      reads this
      ensures IsAgent() <==> user.Some? && "role" in user.value && user.value["role"] == Str("agent")
    {
      HasRole(user, "agent")
    }
  }

  /**
   * A completed login that succeeds: the user is the body without `token`, the
   * session is authenticated, loading is over, no error remains, and the
   * promise resolves with the stored user.
   */
  lemma LoginSucceeds(s: AuthState, data: Obj)
    ensures var r := Settle(Begin(s), Accepted(data));
      r.isAuthenticated && !r.isLoading && r.error == None &&
      r.token == Get(data, "token") &&
      r.user.Some? && "token" !in r.user.value &&
      (forall k :: k in data && k != "token" ==> k in r.user.value && r.user.value[k] == data[k]) &&
      Outcome(Accepted(data)) == Resolved(r.user.value)
  {
  }

  /**
   * A completed login that fails: the error is the server's message when it
   * has one and "Login failed" otherwise, the same message is thrown, and the
   * session fields are as they were.
   */
  lemma LoginFails(s: AuthState, serverError: Option<string>)
    ensures var r := Settle(Begin(s), Refused(serverError));
      r.error == Some(FailureMessage(serverError)) && !r.isLoading &&
      Outcome(Refused(serverError)) == Thrown(FailureMessage(serverError)) &&
      r.user == s.user && r.token == s.token && r.isAuthenticated == s.isAuthenticated
  {
  }

  /** Logging out twice leaves the same state as logging out once. */
  lemma LogoutIdempotent(s: AuthState)
    ensures SignOut(SignOut(s)) == SignOut(s)
    ensures !SignOut(s).isAuthenticated && SignOut(s).user == None && SignOut(s).token == Null
    ensures SignOut(s).isLoading == s.isLoading && SignOut(s).error == s.error
  {
  }

  /**
   * Nothing guards against a stale reply: a logout while the call is pending
   * does not stop its late success from authenticating the session again.
   */
  lemma StaleLoginReauthenticates(s: AuthState, data: Obj)
    ensures Settle(SignOut(Begin(s)), Accepted(data)).isAuthenticated
  {
  }

  /** The two role predicates never hold together and both fail without a user. */
  lemma RolesExclusive(user: Option<Obj>)
    ensures !(HasRole(user, "admin") && HasRole(user, "agent"))
    ensures user.None? ==> !HasRole(user, "admin") && !HasRole(user, "agent")
  {
  }

  /**
   * Persisting and rehydrating restores the token and the user and nothing
   * else: the flags come back as initialised, so the session is not marked
   * authenticated.
   */
  lemma PersistRoundTrip(s: AuthState)
    ensures var r := Rehydrate(Some(Partialize(s)));
      r.token == s.token && r.user == s.user &&
      !r.isAuthenticated && !r.isLoading && r.error == None
    ensures Partialize(Rehydrate(Some(Partialize(s)))) == Partialize(s)
  {
  }

  /** `setUser(null)` on a signed-in session leaves it authenticated without a user. */
  lemma SetUserBreaksPairing()
    ensures var s := Settle(Begin(Initial), Accepted(map["token" := Str("T"), "role" := Str("admin")]));
      Paired(s) && !Paired(s.(user := None))
  {
  }

  /** A rehydrated session with a token and a user is not marked authenticated. */
  lemma RehydrateBreaksPairing(t: string, u: Obj)
    ensures !Paired(Rehydrate(Some(Persisted(Str(t), Some(u)))))
  {
  }

  /** A successful reply without a `token` still authenticates, with an undefined token. */
  lemma MissingTokenStillAuthenticates(s: AuthState, data: Obj)
    requires "token" !in data
    ensures var r := Settle(Begin(s), Accepted(data));
      r.isAuthenticated && r.token == Undefined && !Paired(r)
  {
  }
}
