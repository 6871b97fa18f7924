/**
 * The login page (`Login`): the credential checks run before the store's
 * `login`, the message shown after a failure, and where a signed-in user is sent.
 */
module LoginPage {
  import opened Js
  import opened Auth

  const UsernameRequired := "Username is required"
  const PasswordRequired := "Password is required"
  const UsernameTooShort := "Username must be at least 3 characters"
  const InvalidCredentials := "Invalid username or password"

  /** The characters `String.prototype.trim` strips: white space and line terminators. */
  predicate IsSpace(c: char)
  {
    c == '\t' || c == '\n' || c == '\U{B}' || c == '\U{C}' || c == '\r' || c == ' ' ||
    c == '\U{A0}' || c == '\U{1680}' || ('\U{2000}' <= c <= '\U{200A}') ||
    c == '\U{2028}' || c == '\U{2029}' || c == '\U{202F}' || c == '\U{205F}' ||
    c == '\U{3000}' || c == '\U{FEFF}'
  }

  /** Every character is one `trim` strips. */
  predicate AllSpace(s: string)
  {
    forall i :: 0 <= i < |s| ==> IsSpace(s[i])
  }

  /** Leading white space removed: a suffix of `s` that is empty or starts with a kept character. */
  function TrimStart(s: string): (r: string)
    ensures |r| <= |s| && r == s[|s| - |r|..]
    ensures r == [] <==> AllSpace(s)
    ensures r != [] ==> !IsSpace(r[0])
  {
    if s != [] && IsSpace(s[0]) then TrimStart(s[1..]) else s
  }

  /** Trailing white space removed: a prefix of `s` that is empty or ends with a kept character. */
  function TrimEnd(s: string): (r: string)
    ensures |r| <= |s| && r == s[..|r|]
    ensures r == [] <==> AllSpace(s)
    ensures r != [] ==> !IsSpace(r[|r| - 1])
  {
    if s != [] && IsSpace(s[|s| - 1]) then TrimEnd(s[..|s| - 1]) else s
  }

  /** `s.trim()`: empty exactly when every character of `s` is white space. */
  function Trim(s: string): (r: string)
    ensures r == [] <==> AllSpace(s)
    ensures r != [] ==> !IsSpace(r[0]) && !IsSpace(r[|r| - 1])
    ensures exists a, b :: 0 <= a <= b <= |s| && r == s[a..b]
  {
    var t := TrimStart(s);
    var a := |s| - |t|;
    assert TrimEnd(t) == s[a..a + |TrimEnd(t)|];
    assert t != [] ==> !AllSpace(t) by {
      if t != [] {
        assert !IsSpace(t[0]);
      }
    }
    TrimEnd(t)
  }

  /**
   * The checks of `handleSubmit`, in order, the first failing one deciding the
   * message: a blank username, then an empty password, then a username shorter
   * than three characters (measured before trimming). `None` lets the login proceed.
   */
  function Validate(username: string, password: string): (r: Option<string>)
    ensures r == Some(UsernameRequired) <==> AllSpace(username)
    ensures r == Some(PasswordRequired) <==> !AllSpace(username) && password == ""
    ensures r == Some(UsernameTooShort) <==> !AllSpace(username) && password != "" && |username| < 3
    ensures r == None <==> !AllSpace(username) && password != "" && |username| >= 3
  {
    if Trim(username) == "" then Some(UsernameRequired)
    else if password == "" then Some(PasswordRequired)
    else if |username| < 3 then Some(UsernameTooShort)
    else None
  }

  /** Where a signed-in user goes: the admin area for the admin role, the user area otherwise. */
  function Redirect(user: Option<Obj>): (target: string)
    ensures target == "/admin" <==> HasRole(user, "admin")
    ensures target == "/admin" || target == "/user"
  {
    if HasRole(user, "admin") then "/admin" else "/user"
  }

  /** The page redirects at once when the session is already authenticated. */
  function EntryRedirect(isAuthenticated: bool, user: Option<Obj>): (target: Option<string>)
    ensures target.Some? <==> isAuthenticated
    ensures target.Some? ==> target.value == Redirect(user)
  {
    if isAuthenticated then Some(Redirect(user)) else None
  }

  /** `err.message || 'Invalid username or password'`. */
  function DisplayedError(message: string): (shown: string)
    ensures shown != ""
    ensures message != "" ==> shown == message
    ensures message == "" ==> shown == InvalidCredentials
  {
    if message != "" then message else InvalidCredentials
  }

  /** The page's own form state. */
  class LoginForm {
    var username: string
    var password: string
    var isLoading: bool
    var error: string

    /** An empty form. */
    constructor ()
      ensures username == "" && password == "" && !isLoading && error == ""
    {
      username, password, isLoading, error := "", "", false, "";
    }

    /**
     * `handleSubmit`. A failing check shows its message and returns before
     * loading starts and before the store is touched. Otherwise the store's
     * `login` runs with the typed credentials; success navigates by role, a
     * thrown error is shown; loading always ends. `reply` is how the server answers.
     */
    method HandleSubmit(store: AuthStore, reply: LoginReply) returns (target: Option<string>)
      requires store.Valid()
      modifies this, store
      ensures store.Valid()
      ensures username == old(username) && password == old(password)
      ensures Validate(username, password).Some? ==>
        error == Validate(username, password).value && isLoading == old(isLoading) &&
        target == None && unchanged(store)
      ensures Validate(username, password).None? ==>
        !isLoading &&
        store.State() == Settle(Begin(old(store.State())), reply) &&
        store.effects == old(store.effects) + [Committed(Begin(old(store.State()))), Called(username, password)]
                                            + SettleEffects(Begin(old(store.State())), reply)
      ensures Validate(username, password).None? && reply.Accepted? ==>
        error == "" && target == Some(Redirect(store.user))
      ensures Validate(username, password).None? && reply.Refused? ==>
        error == DisplayedError(FailureMessage(reply.serverError)) && target == None
    {
      error := "";
      target := None;
      var check := Validate(username, password);
      if check.Some? {
        error := check.value;
        return;
      }
      isLoading := true;
      var outcome := store.Login(username, password, reply);
      if outcome.Resolved? {
        target := Some(Redirect(Some(outcome.user)));
      } else {
        error := DisplayedError(outcome.message);
      }
      isLoading := false;
    }
  }

  /**
   * The page's fallback message is never shown after a store login: the store
   * always throws a non-empty message, so the page shows exactly that message.
   */
  lemma StoreMessageShownVerbatim(serverError: Option<string>)
    ensures DisplayedError(FailureMessage(serverError)) == FailureMessage(serverError)
    ensures DisplayedError(FailureMessage(serverError)) != InvalidCredentials || serverError == Some(InvalidCredentials)
  {
  }

  /** The length check counts the untrimmed username, so padding can make a short name pass. */
  lemma PaddedShortNamePasses()
    ensures Validate("  a", "secret") == None
    ensures Validate("ab ", "secret") == None
    ensures Validate("ab", "secret") == Some(UsernameTooShort)
    ensures Validate("   ", "") == Some(UsernameRequired)
  {
    assert !IsSpace('a');
    assert !AllSpace("  a") by { assert "  a"[2] == 'a'; }
    assert !AllSpace("ab ") by { assert "ab "[0] == 'a'; }
    assert !AllSpace("ab") by { assert "ab"[0] == 'a'; }
  }
}
