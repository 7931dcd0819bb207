/**
 * `src/features/auth/authSlice.ts`: the signed-in user and the status of the
 * last login or logout. `Reduce` specifies the reducer; `AuthStore` is the
 * slice state its cases update in place.
 */
module AuthSlice {
  import opened Types
  import Rejection

  datatype AuthState = AuthState(user: Option<UserPublic>, status: Status, error: Option<string>)

  const InitialState: AuthState := AuthState(None, Idle, None)

  const LoginDefault: string := "Login failed"
  const LogoutDefault: string := "Logout failed"

  /** The login/logout life-cycle actions and `resetAuthError`. */
  datatype AuthAction =
    | LoginPending
    | LoginFulfilled(user: UserPublic)
    | LoginRejected(rejection: Option<RejectedPayload>)
    | LogoutPending
    | LogoutFulfilled
    | LogoutRejected(rejection: Option<RejectedPayload>)
    | ResetAuthError

  /** The body of a successful login response. */
  datatype LoginResponse = LoginResponse(detail: string, user: UserPublic)

  /** The action `login` settles with: the response's user, or the envelope with "Login failed". */
  function LoginSettled(outcome: Settled<LoginResponse>): (a: AuthAction)
    ensures outcome.Resolved? <==> a.LoginFulfilled?
    ensures outcome.Resolved? ==> a.user == outcome.value.user
    ensures outcome.Threw? ==> a == LoginRejected(Some(Rejection.ToRejectedPayload(outcome.reason, LoginDefault)))
  {
    match outcome
    case Resolved(res) => LoginFulfilled(res.user)
    case Threw(err) => LoginRejected(Some(Rejection.ToRejectedPayload(err, LoginDefault)))
  }

  /** The action `logout` settles with: fulfilled, or the envelope with "Logout failed". */
  function LogoutSettled(outcome: Settled<()>): (a: AuthAction)
    ensures outcome.Resolved? <==> a.LogoutFulfilled?
    ensures outcome.Threw? ==> a == LogoutRejected(Some(Rejection.ToRejectedPayload(outcome.reason, LogoutDefault)))
  {
    match outcome
    case Resolved(_) => LogoutFulfilled
    case Threw(err) => LogoutRejected(Some(Rejection.ToRejectedPayload(err, LogoutDefault)))
  }

  function DetailOr(rejection: Option<RejectedPayload>, fallback: string): string {
    if rejection.Some? then rejection.value.detail else fallback
  }

  /** The reducer. */
  function Reduce(s: AuthState, a: AuthAction): AuthState {
    match a
    case LoginPending => s.(status := Loading, error := None)
    case LoginFulfilled(u) => AuthState(Some(u), Succeeded, None)
    case LoginRejected(p) => AuthState(None, Failed, Some(DetailOr(p, LoginDefault)))
    case LogoutPending => s.(status := Loading, error := None)
    case LogoutFulfilled => AuthState(None, Idle, None)
    case LogoutRejected(p) => s.(status := Failed, error := Some(DetailOr(p, LogoutDefault)))
    case ResetAuthError => s.(error := None)
  }

  function ReduceAll(s: AuthState, acts: seq<AuthAction>): AuthState
    decreases |acts|
  {
    if acts == [] then s else Reduce(ReduceAll(s, acts[..|acts| - 1]), acts[|acts| - 1])
  }

  /** An error message is only ever shown next to a failed status. */
  predicate ErrorMeansFailed(s: AuthState) {
    s.error.Some? ==> s.status == Failed
  }

  lemma ActionKeepsErrorMeansFailed(s: AuthState, a: AuthAction)
    ensures ErrorMeansFailed(Reduce(s, a))
  {
  }

  /** After any sequence of actions from the initial state, an error implies a failed status. */
  lemma {:induction false} ErrorMeansFailedAfterAnySequence(acts: seq<AuthAction>)
    ensures ErrorMeansFailed(ReduceAll(InitialState, acts))
  {
    if acts != [] {
      ActionKeepsErrorMeansFailed(ReduceAll(InitialState, acts[..|acts| - 1]), acts[|acts| - 1]);
    }
  }

  /** The converse does not hold: a rejected login followed by `resetAuthError` is failed without an error. */
  lemma FailedWithoutError()
    ensures var s := ReduceAll(InitialState, [LoginPending, LoginRejected(None), ResetAuthError]);
            s.status == Failed && s.error.None?
  {
    var acts := [LoginPending, LoginRejected(None), ResetAuthError];
    assert acts[..2][..1] == [LoginPending];
    assert acts[..2] == [LoginPending, LoginRejected(None)];
  }

  /**
   * The user the state holds, read off the actions: the user of the last
   * action that sets or clears it (a fulfilled login, a rejected login or a
   * fulfilled logout), or `fallback` when none did.
   */
  function SessionUser(acts: seq<AuthAction>, fallback: Option<UserPublic>): Option<UserPublic>
    decreases |acts|
  {
    if acts == [] then fallback
    else
      match acts[|acts| - 1]
      case LoginFulfilled(u) => Some(u)
      case LoginRejected(_) => None
      case LogoutFulfilled => None
      case _ => SessionUser(acts[..|acts| - 1], fallback)
  }

  /** Pending actions, failed logouts and error resets never change who is signed in. */
  lemma {:induction false} UserIsSessionUser(s: AuthState, acts: seq<AuthAction>)
    ensures ReduceAll(s, acts).user == SessionUser(acts, s.user)
  {
    if acts != [] {
      UserIsSessionUser(s, acts[..|acts| - 1]);
    }
  }

  /** A failed logout leaves the session signed in and reports the server's detail or "Logout failed". */
  lemma FailedLogoutKeepsUser(s: AuthState, err: Thrown)
    ensures var t := Reduce(Reduce(s, LogoutPending), LogoutSettled(Threw(err)));
            t.user == s.user && t.status == Failed
            && t.error == Some(Rejection.ToRejectedPayload(err, LogoutDefault).detail)
  {
  }

  /** A failed login signs the user out, whoever was signed in. */
  lemma FailedLoginClearsUser(s: AuthState, err: Thrown)
    ensures var t := Reduce(Reduce(s, LoginPending), LoginSettled(Threw(err)));
            t.user.None? && t.status == Failed
            && t.error == Some(Rejection.ToRejectedPayload(err, LoginDefault).detail)
  {
  }

  /** The slice state, updated in place by the reducer cases. */
  class AuthStore {
    var user: Option<UserPublic>
    var status: Status
    var error: Option<string>

    function State(): AuthState
      reads this
    {
      AuthState(user, status, error)
    }

    /** `initialState`. */
    constructor ()
      ensures State() == InitialState
    {
      user, status, error := None, Idle, None;
    }

    /** `resetAuthError`: only the error is cleared. */
    method ResetAuthError()
      modifies this`error
      ensures error == None
      ensures State() == Reduce(old(State()), AuthAction.ResetAuthError)
    {
      error := None;
    }

    /** `login.pending` and `logout.pending`: loading, no error, the user untouched. */
    method Pending(a: AuthAction)
      requires a.LoginPending? || a.LogoutPending?
      modifies this`status, this`error
      ensures status == Loading && error == None
      ensures State() == Reduce(old(State()), a)
    {
      status := Loading;
      error := None;
    }

    /** `login.fulfilled`: the payload becomes the user. */
    method LoginFulfilled(u: UserPublic)
      modifies this
      ensures user == Some(u) && status == Succeeded && error == None
      ensures State() == Reduce(old(State()), AuthAction.LoginFulfilled(u))
    {
      status := Succeeded;
      user := Some(u);
      error := None;
    }

    /** `login.rejected`: failed, signed out, with the detail or "Login failed". */
    method LoginRejected(rejection: Option<RejectedPayload>)
      modifies this
      ensures user == None && status == Failed && error == Some(DetailOr(rejection, LoginDefault))
      ensures State() == Reduce(old(State()), AuthAction.LoginRejected(rejection))
    {
      status := Failed;
      user := None;
      error := Some(DetailOr(rejection, LoginDefault));
    }

    /** `logout.fulfilled`: back to idle, signed out, no error. */
    method LogoutFulfilled()
      modifies this
      ensures user == None && status == Idle && error == None
      ensures State() == Reduce(old(State()), AuthAction.LogoutFulfilled)
    {
      status := Idle;
      user := None;
      error := None;
    }

    /** `logout.rejected`: failed with the detail or "Logout failed"; the user stays. */
    method LogoutRejected(rejection: Option<RejectedPayload>)
      modifies this`status, this`error
      ensures status == Failed && error == Some(DetailOr(rejection, LogoutDefault))
      ensures State() == Reduce(old(State()), AuthAction.LogoutRejected(rejection))
    {
      status := Failed;
      error := Some(DetailOr(rejection, LogoutDefault));
    }

    /** The slice reducer: one action, routed to its case. */
    method Apply(a: AuthAction)
      modifies this
      ensures State() == Reduce(old(State()), a)
    {
      match a
      case LoginPending => Pending(a);
      case LoginFulfilled(u) => LoginFulfilled(u);
      case LoginRejected(p) => LoginRejected(p);
      case LogoutPending => Pending(a);
      case LogoutFulfilled => LogoutFulfilled();
      case LogoutRejected(p) => LogoutRejected(p);
      case ResetAuthError => ResetAuthError();
    }
  }
}
