/**
 * The sign-in state in the store and the session storage the auth thunks
 * write. The auth service's answers, and what its isAuthenticated,
 * isTokenExpired and getCurrentUserId report, are parameters.
 */
module AuthSlice {
  import opened Wrappers

  /** The session storage items "token" and "userId"; None is an absent item. */
  datatype Session = Session(token: Option<string>, userId: Option<string>)

  /** What the login and register services answer. */
  datatype AuthData = AuthData(token: string, userId: string)

  /** The fetch answer of the password endpoints: the status flag and the body's message, if any. */
  datatype HttpReply = HttpReply(ok: bool, message: Option<string>)

  /** The requests of the auth thunks. */
  datatype Request = LoginRequest | RegisterRequest | LogoutRequest | ForgotRequest | ResetRequest

  const LoginFailed: string := "Invalid email or password."
  const RegisterFailed: string := "Registration failed. Please try again."
  const LogoutFailed: string := "Logout failed."
  const ForgotSent: string := "Check your email for reset link."
  const ForgotFailed: string := "Failed to send reset email."
  const ResetFailed: string := "Failed to reset password"
  const ResetDone: string := "Password reset successful!"
  const ResetError: string := "An error occurred. Please try again."

  /** A thunk's result and the session storage after it. */
  datatype Outcome<T> = Outcome(result: Result<T>, session: Session)

  /**
   * login / register: on success both items are stored and the data
   * returned; when the service throws, the fixed message of the request and
   * the storage untouched.
   */
  function SignInThunk(register: bool, reply: Option<AuthData>, session: Session): (r: Outcome<AuthData>)
    ensures reply.Some? ==> r.result == Ok(reply.value) && r.session == Session(Some(reply.value.token), Some(reply.value.userId))
    ensures reply.None? ==> r.result == Err(if register then RegisterFailed else LoginFailed) && r.session == session
  {
    match reply
    case Some(data) => Outcome(Ok(data), Session(Some(data.token), Some(data.userId)))
    case None => Outcome(Err(if register then RegisterFailed else LoginFailed), session)
  }

  /** logout: a successful service call removes both items; a failure keeps them. */
  function LogoutThunk(succeeds: bool, session: Session): (r: Outcome<()>)
    ensures succeeds ==> r.result.Ok? && r.session == Session(None, None)
    ensures !succeeds ==> r.result == Err(LogoutFailed) && r.session == session
  {
    if succeeds then Outcome(Ok(()), Session(None, None)) else Outcome(Err(LogoutFailed), session)
  }

  /**
   * forgotPassword: the body's message or the fixed hint, whatever the
   * status; only a failed request or body (None) rejects.
   */
  function ForgotThunk(reply: Option<HttpReply>): (r: Result<string>)
    ensures r.Ok? <==> reply.Some?
    ensures reply.Some? ==> r.value == TextOr(reply.value.message, ForgotSent)
    ensures reply.None? ==> r.error == ForgotFailed
  {
    match reply
    case Some(res) => Ok(TextOr(res.message, ForgotSent))
    case None => Err(ForgotFailed)
  }

  /**
   * resetPassword: rejects when the response is not ok, with the body's
   * message or the fixed text; a failed request rejects with the generic
   * error; an ok response gives its message or the success text.
   */
  function ResetThunk(reply: Option<HttpReply>): (r: Result<string>)
    ensures r.Ok? <==> reply.Some? && reply.value.ok
    ensures reply.Some? && reply.value.ok ==> r.value == TextOr(reply.value.message, ResetDone)
    ensures reply.Some? && !reply.value.ok ==> r.error == TextOr(reply.value.message, ResetFailed)
    ensures reply.None? ==> r.error == ResetError
  {
    match reply
    case None => Err(ResetError)
    case Some(res) => if res.ok then Ok(TextOr(res.message, ResetDone)) else Err(TextOr(res.message, ResetFailed))
  }

  /** The requests whose pending and rejected cases the slice handles: all but logout. */
  predicate Tracked(req: Request)
  {
    req != LogoutRequest
  }

  class AuthStore {
    var isLoggedIn: bool
    var userId: Option<string>
    var token: Option<string>
    var loading: bool
    var error: Option<string>

    /**
     * initialState: logged in iff the service reports an authenticated,
     * unexpired session; the user id as the service reports it and the token
     * as stored, whether or not the session is authenticated.
     */
    constructor (authenticated: bool, currentUserId: Option<string>, session: Session)
      ensures isLoggedIn == authenticated && userId == currentUserId && token == session.token
      ensures !loading && error.None?
    {
      isLoggedIn, userId, token := authenticated, currentUserId, session.token;
      loading, error := false, None;
    }

    /** Signed out means no user id and no token. */
    predicate SignedOutIsClean()
      reads this
    {
      !isLoggedIn ==> userId.None? && token.None?
    }

    /** checkAuthStatus: re-reads the session, and forgets id and token when it is not authenticated. */
    method CheckAuthStatus(authenticated: bool, currentUserId: Option<string>, session: Session)
      modifies this`isLoggedIn, this`userId, this`token
      ensures isLoggedIn == authenticated
      ensures userId == (if authenticated then currentUserId else None)
      ensures token == (if authenticated then session.token else None)
      ensures SignedOutIsClean()
    {
      isLoggedIn := authenticated;
      userId := if authenticated then currentUserId else None;
      token := if authenticated then session.token else None;
    }

    method ClearError()
      modifies this`error
      ensures error.None?
    {
      error := None;
    }

    /** The pending case: loading on and the error cleared; logout has none. */
    method Pending(req: Request)
      modifies this`loading, this`error
      ensures Tracked(req) ==> loading && error.None?
      ensures !Tracked(req) ==> loading == old(loading) && error == old(error)
      ensures old(SignedOutIsClean()) ==> SignedOutIsClean()
    {
      if Tracked(req) {
        loading, error := true, None;
      }
    }

    /** The rejected case: loading off and the payload as the error; logout has none. */
    method Rejected(req: Request, payload: string)
      modifies this`loading, this`error
      ensures Tracked(req) ==> !loading && error == Some(payload)
      ensures !Tracked(req) ==> loading == old(loading) && error == old(error)
      ensures old(SignedOutIsClean()) ==> SignedOutIsClean()
    {
      if Tracked(req) {
        loading, error := false, Some(payload);
      }
    }

    /** login.fulfilled and register.fulfilled: logged in as the answered user with its token. */
    method SignedIn(data: AuthData)
      modifies this`isLoggedIn, this`userId, this`token, this`loading
      ensures isLoggedIn && userId == Some(data.userId) && token == Some(data.token) && !loading
      ensures SignedOutIsClean()
    {
      isLoggedIn, userId, token, loading := true, Some(data.userId), Some(data.token), false;
    }

    /** logout.fulfilled: logged out with no id and no token; loading is not touched. */
    method LoggedOut()
      modifies this`isLoggedIn, this`userId, this`token
      ensures !isLoggedIn && userId.None? && token.None?
      ensures SignedOutIsClean()
    {
      isLoggedIn, userId, token := false, None, None;
    }

    /** forgotPassword.fulfilled and resetPassword.fulfilled: only loading goes off. */
    method PasswordMailed()
      modifies this`loading
      ensures !loading
      ensures old(SignedOutIsClean()) ==> SignedOutIsClean()
    {
      loading := false;
    }
  }
}
