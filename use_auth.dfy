/**
 * The authentication session store (`useAuth`): one process-wide session
 * (`currentUser`, `loading`, `error`, `authInitialized`) fed by a single
 * identity-provider listener attached at most once, and four operations that
 * share one loading/error discipline. Provider calls are atomic steps whose
 * outcome is an argument; their effect on the signed-in user reaches the
 * session only through the listener callback.
 */
module UseAuth {
  import opened Wrappers
  import opened AuthErrors

  /** The session's view of the signed-in user. */
  datatype AuthUser = AuthUser(
    uid: string,
    email: string,
    displayName: Option<string>,
    photoURL: Option<string>,
    emailVerified: bool)

  /** The provider's account as its state-change callback delivers it. */
  datatype ProviderUser = ProviderUser(
    uid: string,
    email: Option<string>,
    displayName: Option<string>,
    photoURL: Option<string>,
    emailVerified: bool)

  /** JavaScript truthiness of an optional string: present and non-empty. */
  predicate Truthy(s: Option<string>) {
    s.Some? && s.value != ""
  }

  /** `s || undefined` */
  function OrUndefined(s: Option<string>): Option<string> {
    if Truthy(s) then s else None
  }

  /** The callback's mapping of a provider account: `email || ''`, and an
      empty display name or photo URL becomes absent. */
  function ToAuthUser(u: ProviderUser): (r: AuthUser)
    ensures r.uid == u.uid && r.emailVerified == u.emailVerified
    ensures r.email == "" <==> !Truthy(u.email)
    ensures r.email != "" ==> u.email == Some(r.email)
    ensures r.displayName.Some? <==> Truthy(u.displayName)
    ensures r.displayName.Some? ==> r.displayName == u.displayName && r.displayName.value != ""
    ensures r.photoURL.Some? <==> Truthy(u.photoURL)
    ensures r.photoURL.Some? ==> r.photoURL == u.photoURL && r.photoURL.value != ""
  {
    AuthUser(
      u.uid,
      if Truthy(u.email) then u.email.value else "",
      OrUndefined(u.displayName),
      OrUndefined(u.photoURL),
      u.emailVerified)
  }

  /** `isAuthenticated`: a user is signed in. */
  function IsAuthenticated(currentUser: Option<AuthUser>): (r: bool)
    ensures r <==> currentUser != None
  {
    currentUser.Some?
  }

  /** How an awaited provider call ended. */
  datatype Outcome = Success | Failure(err: ProviderError)

  /** `{ success, error? }` as the four operations return it. */
  datatype AuthResult = AuthResult(success: bool, error: Option<AuthError>)

  /** The provider calls the store makes, for stating which it makes. */
  datatype ProviderCall =
    | CreateAccount(email: string)
    | SetDisplayName(name: string)
    | SignIn(email: string)
    | SignOut
    | SendPasswordReset(email: string)

  /** The process-wide session. */
  class AuthSession {
    var currentUser: Option<AuthUser>
    var loading: bool
    var error: Option<string>
    var authInitialized: bool
    var authListenerInitialized: bool
    /** How many times a provider listener has been attached. */
    ghost var listenerAttachments: nat
    /** Every provider call made so far, in order. */
    ghost var calls: seq<ProviderCall>

    /** At most one listener, attached exactly when the guard flag is set;
        the session is initialised only through that listener. */
    ghost predicate Valid()
      reads this
    {
      && listenerAttachments == (if authListenerInitialized then 1 else 0)
      && (authInitialized ==> authListenerInitialized)
    }

    /** The module-level state as the program starts. */
    constructor ()
      ensures Valid()
      ensures currentUser == None && loading && error == None && !authInitialized
      ensures !authListenerInitialized && calls == []
    {
      currentUser := None;
      loading := true;
      error := None;
      authInitialized := false;
      authListenerInitialized := false;
      listenerAttachments := 0;
      calls := [];
    }

    /** `initializeAuthListener()`: attaches the listener unless the guard
        says it is attached already. */
    method InitializeAuthListener()
      requires Valid()
      modifies this`authListenerInitialized, this`listenerAttachments
      ensures Valid()
      ensures authListenerInitialized && listenerAttachments == 1
      ensures old(authListenerInitialized) ==> listenerAttachments == old(listenerAttachments)
    {
      if authListenerInitialized {
        return;
      }
      authListenerInitialized := true;
      listenerAttachments := listenerAttachments + 1;
    }

    /** `useAuth()`: every call site shares the one session; the first use
        attaches the listener, later uses attach nothing. */
    method UseAuth()
      requires Valid()
      modifies this`authListenerInitialized, this`listenerAttachments
      ensures Valid()
      ensures authListenerInitialized && listenerAttachments == 1
      ensures old(authListenerInitialized) ==> listenerAttachments == old(listenerAttachments)
    {
      if !authListenerInitialized {
        InitializeAuthListener();
      }
    }

    /** The listener callback, the only writer of `currentUser`: maps the
        account (or its absence), ends loading and marks the session
        initialised for good. */
    method OnAuthStateChanged(user: Option<ProviderUser>)
      requires Valid() && authListenerInitialized
      modifies this`currentUser, this`loading, this`authInitialized
      ensures Valid()
      ensures currentUser == if user.Some? then Some(ToAuthUser(user.value)) else None
      ensures IsAuthenticated(currentUser) <==> user.Some?
      ensures !loading && authInitialized
    {
      if user.Some? {
        currentUser := Some(ToAuthUser(user.value));
      } else {
        currentUser := None;
      }
      loading := false;
      authInitialized := true;
    }

    /** The common ending of the four operations: on failure the classified
        error is recorded and returned; loading is over either way. */
    method Settle(failure: Option<ProviderError>) returns (result: AuthResult)
      requires Valid()
      modifies this`loading, this`error
      ensures Valid()
      ensures !loading
      ensures result.success <==> failure.None?
      ensures failure.None? ==> result.error == None && error == old(error)
      ensures failure.Some? ==>
        && result.error == Some(HandleAuthError(failure.value))
        && error == Some(HandleAuthError(failure.value).message)
    {
      if failure.Some? {
        var authError := HandleAuthError(failure.value);
        error := Some(authError.message);
        result := AuthResult(false, Some(authError));
      } else {
        result := AuthResult(true, None);
      }
      loading := false;
    }

    /** `signup(email, password, displayName?)`: creates the account, then
        sets the display name only when one was given and is non-empty. A
        failure of either step is the operation's failure. */
    method Signup(email: string, password: string, displayName: Option<string>, created: Outcome, profileSet: Outcome)
      returns (result: AuthResult)
      requires Valid()
      modifies this`loading, this`error, this`calls
      ensures Valid()
      ensures !loading
      ensures calls == old(calls) + [CreateAccount(email)]
        + (if created.Success? && Truthy(displayName) then [SetDisplayName(displayName.value)] else [])
      ensures result.success <==> created.Success? && (Truthy(displayName) ==> profileSet.Success?)
      ensures result.success ==> result.error == None && error == None
      ensures created.Failure? ==>
        result.error == Some(HandleAuthError(created.err)) && error == Some(HandleAuthError(created.err).message)
      ensures created.Success? && Truthy(displayName) && profileSet.Failure? ==>
        result.error == Some(HandleAuthError(profileSet.err)) && error == Some(HandleAuthError(profileSet.err).message)
    {
      loading := true;
      error := None;
      calls := calls + [CreateAccount(email)];
      var failure: Option<ProviderError> := None;
      if created.Failure? {
        failure := Some(created.err);
      } else if Truthy(displayName) {
        calls := calls + [SetDisplayName(displayName.value)];
        if profileSet.Failure? {
          failure := Some(profileSet.err);
        }
      }
      result := Settle(failure);
    }

    /** `login(email, password)`. */
    method Login(email: string, password: string, signedIn: Outcome) returns (result: AuthResult)
      requires Valid()
      modifies this`loading, this`error, this`calls
      ensures Valid()
      ensures !loading
      ensures calls == old(calls) + [SignIn(email)]
      ensures result.success <==> signedIn.Success?
      ensures result.success ==> result.error == None && error == None
      ensures signedIn.Failure? ==>
        result.error == Some(HandleAuthError(signedIn.err)) && error == Some(HandleAuthError(signedIn.err).message)
    {
      loading := true;
      error := None;
      calls := calls + [SignIn(email)];
      result := Settle(if signedIn.Failure? then Some(signedIn.err) else None);
    }

    /** `logout()`: the user is cleared later, by the listener. */
    method Logout(signedOut: Outcome) returns (result: AuthResult)
      requires Valid()
      modifies this`loading, this`error, this`calls
      ensures Valid()
      ensures !loading
      ensures calls == old(calls) + [SignOut]
      ensures result.success <==> signedOut.Success?
      ensures result.success ==> result.error == None && error == None
      ensures signedOut.Failure? ==>
        result.error == Some(HandleAuthError(signedOut.err)) && error == Some(HandleAuthError(signedOut.err).message)
    {
      loading := true;
      error := None;
      calls := calls + [SignOut];
      result := Settle(if signedOut.Failure? then Some(signedOut.err) else None);
    }

    /** `resetPassword(email)`. */
    method ResetPassword(email: string, sent: Outcome) returns (result: AuthResult)
      requires Valid()
      modifies this`loading, this`error, this`calls
      ensures Valid()
      ensures !loading
      ensures calls == old(calls) + [SendPasswordReset(email)]
      ensures result.success <==> sent.Success?
      ensures result.success ==> result.error == None && error == None
      ensures sent.Failure? ==>
        result.error == Some(HandleAuthError(sent.err)) && error == Some(HandleAuthError(sent.err).message)
    {
      loading := true;
      error := None;
      calls := calls + [SendPasswordReset(email)];
      result := Settle(if sent.Failure? then Some(sent.err) else None);
    }

    /** `clearError()`; a second call changes nothing more. */
    method ClearError()
      requires Valid()
      modifies this`error
      ensures Valid()
      ensures error == None
    {
      error := None;
    }
  }
}
