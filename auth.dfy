/**
 * The authentication context: the signed-in user, a loading flag and an
 * error message, changed step by step by the initial session load, the
 * provider's auth-change callback, sign-in, sign-out and the guarded
 * password change. Every answer of the auth provider is an input.
 */
module Auth {
  import opened Wrappers

  /** The user the context exposes; an email of "" stands for a missing one. */
  datatype User = User(id: string, email: string, createdAt: string, lastSignInAt: Option<string>)

  /** `session.user` as the provider reports it; None is an undefined or null sign-in time. */
  datatype SessionUser = SessionUser(id: string, email: string, createdAt: string, lastSignInAt: Option<string>)

  /** The user built from a session user: `last_sign_in_at || null`. */
  function UserOf(s: SessionUser): (u: User)
    ensures u.id == s.id && u.email == s.email && u.createdAt == s.createdAt
    ensures u.lastSignInAt.None? <==> s.lastSignInAt.None? || s.lastSignInAt.value == ""
    ensures u.lastSignInAt.Some? ==> u.lastSignInAt == s.lastSignInAt
  {
    var last := if s.lastSignInAt.Some? && s.lastSignInAt.value != "" then s.lastSignInAt else None;
    User(s.id, s.email, s.createdAt, last)
  }

  /** What `getSession()` gave: a session (with or without a user), or an exception. */
  datatype SessionResult = Loaded(session: Option<SessionUser>) | LoadThrew

  /** A provider call's outcome: no error, an error object with a message, or an exception. */
  datatype ProviderResult = Ok | Failed(message: string) | Threw

  /** The calls `updatePassword` makes to the provider, in order. */
  datatype ProviderCall = VerifyPassword(email: string, password: string) | UpdateUser(password: string)

  const FailedToLoad: string := "Failed to load session"
  const LoginFailed: string := "Login failed"
  const FailedToSignOut: string := "Failed to sign out"
  const UserNotFound: string := "User not found"
  const WrongPassword: string := "Password lama salah"
  const FailedToUpdate: string := "Failed to update password"

  /** The error message an operation reports for a provider result; None is success. */
  function ErrorMessage(r: ProviderResult, onThrow: string): Option<string>
  {
    match r
    case Ok => None
    case Failed(message) => Some(message)
    case Threw => Some(onThrow)
  }

  /**
   * What `updatePassword` does for a user with email `email`: the provider
   * calls it makes, the error it returns, and the error state it leaves.
   */
  datatype Attempt = Attempt(calls: seq<ProviderCall>, returned: Option<string>, errorState: Option<string>)

  function PasswordChange(email: string, current: string, newPassword: string, verify: ProviderResult, update: ProviderResult): (a: Attempt)
    ensures email == "" ==> a == Attempt([], Some(UserNotFound), None)
    ensures email != "" ==> |a.calls| >= 1 && a.calls[0] == VerifyPassword(email, current)
    ensures email != "" ==> a.errorState == a.returned
    ensures email != "" ==> a.calls == [VerifyPassword(email, current)] + (if verify.Ok? then [UpdateUser(newPassword)] else [])
    ensures forall i :: 0 <= i < |a.calls| && a.calls[i].UpdateUser? ==> i == 1 && verify.Ok? && a.calls[i] == UpdateUser(newPassword)
    ensures a.returned.None? <==> email != "" && verify.Ok? && update.Ok?
    ensures email != "" && verify.Failed? ==> a.returned == Some(WrongPassword)
    ensures email != "" && verify.Threw? ==> a.returned == Some(FailedToUpdate)
    ensures email != "" && verify.Ok? ==> a.returned == ErrorMessage(update, FailedToUpdate)
  {
    if email == "" then Attempt([], Some(UserNotFound), None)
    else
      var verified := [VerifyPassword(email, current)];
      match verify
      case Threw => Attempt(verified, Some(FailedToUpdate), Some(FailedToUpdate))
      case Failed(_) => Attempt(verified, Some(WrongPassword), Some(WrongPassword))
      case Ok =>
        var m := ErrorMessage(update, FailedToUpdate);
        Attempt(verified + [UpdateUser(newPassword)], m, m)
  }

  /** The password is only ever changed after the current one has been confirmed. */
  lemma UpdateNeedsVerification(email: string, current: string, newPassword: string, verify: ProviderResult, update: ProviderResult)
    requires UpdateUser(newPassword) in PasswordChange(email, current, newPassword, verify, update).calls
    ensures email != "" && verify.Ok?
    ensures PasswordChange(email, current, newPassword, verify, update).calls == [VerifyPassword(email, current), UpdateUser(newPassword)]
  {
  }

  /** The email `updatePassword` uses: `user?.email`, with "" for no user. */
  function EmailOf(user: Option<User>): string
  {
    if user.Some? then user.value.email else ""
  }

  class AuthProvider {
    var user: Option<User>
    var loading: bool
    var error: Option<string>

    /** The state before anything has loaded. */
    constructor ()
      ensures user == None && loading && error == None
    {
      user := None;
      loading := true;
      error := None;
    }

    /** `getInitialSession`: a session user signs in; no session leaves the user as it was. */
    method LoadInitialSession(result: SessionResult)
      modifies this
      ensures result.Loaded? && result.session.Some? ==> user == Some(UserOf(result.session.value))
      ensures result.Loaded? && result.session.None? ==> user == old(user)
      ensures result.Loaded? ==> error == old(error)
      ensures result.LoadThrew? ==> user == old(user) && error == Some(FailedToLoad)
      ensures !loading
    {
      match result {
        case Loaded(session) =>
          if session.Some? {
            user := Some(UserOf(session.value));
          }
        case LoadThrew =>
          error := Some(FailedToLoad);
      }
      loading := false;
    }

    /** The auth-change callback: the session decides the user, and loading and error are cleared. */
    method OnAuthStateChange(session: Option<SessionUser>)
      modifies this
      ensures session.Some? ==> user == Some(UserOf(session.value))
      ensures session.None? ==> user == None
      ensures !loading && error == None
    {
      if session.Some? {
        user := Some(UserOf(session.value));
      } else {
        user := None;
      }
      loading := false;
      error := None;
    }

    /**
     * `signIn`: the user is left to the auth-change callback; the returned
     * error is also the error state.
     */
    method SignIn(email: string, password: string, result: ProviderResult) returns (err: Option<string>)
      modifies this
      ensures user == old(user)
      ensures err == ErrorMessage(result, LoginFailed)
      ensures error == err
      ensures !loading
    {
      loading := true;
      error := None;
      match result {
        case Ok =>
          err := None;
        case Failed(message) =>
          error := Some(message);
          err := Some(message);
        case Threw =>
          error := Some(LoginFailed);
          err := Some(LoginFailed);
      }
      loading := false;
    }

    /** `signOut`: success clears the user; an exception keeps it and records the failure. */
    method SignOut(result: ProviderResult)
      modifies this
      ensures !result.Threw? ==> user == None && error == old(error)
      ensures result.Threw? ==> user == old(user) && error == Some(FailedToSignOut)
      ensures !loading
    {
      loading := true;
      if result.Threw? {
        error := Some(FailedToSignOut);
      } else {
        user := None;
      }
      loading := false;
    }

    /**
     * `updatePassword`: checks that there is a user email, confirms the
     * current password by signing in with it, then sets the new one.
     * `calls` lists the provider calls made.
     */
    method UpdatePassword(current: string, newPassword: string, verify: ProviderResult, update: ProviderResult)
      returns (err: Option<string>, calls: seq<ProviderCall>)
      modifies this
      ensures var a := PasswordChange(EmailOf(old(user)), current, newPassword, verify, update);
        err == a.returned && calls == a.calls && error == a.errorState
      ensures user == old(user)
      ensures !loading
    {
      loading := true;
      error := None;
      calls := [];
      if user.None? || user.value.email == "" {
        err := Some(UserNotFound);
      } else {
        var email := user.value.email;
        calls := calls + [VerifyPassword(email, current)];
        match verify {
          case Threw =>
            error := Some(FailedToUpdate);
            err := Some(FailedToUpdate);
          case Failed(_) =>
            error := Some(WrongPassword);
            err := Some(WrongPassword);
          case Ok =>
            calls := calls + [UpdateUser(newPassword)];
            err := ErrorMessage(update, FailedToUpdate);
            error := err;
        }
      }
      loading := false;
    }
  }
}
