/**
 * The profile screen's view-model: loading flags, the credentials of the
 * logged-in user, the contacts list and the last error message. Every
 * asynchronous action is split into the update made before its `await`
 * and the update made when the awaited call returns or throws; what the
 * service call returns or throws is an input. The stored bearer token is
 * the `GraphqlClient.TokenStore`.
 */
module ProfileViewModel {
  import opened Wrappers
  import opened Dto
  import opened GraphqlClient

  datatype ProfileState = ProfileState(
    isLoading: bool,
    isLoadingContacts: bool,
    authData: Option<OAuthCredentials>,
    contacts: seq<Contact>,
    error: Option<string>)

  /** What an awaited call can throw: an `Error` with its message, or any other value. */
  datatype Thrown = ErrorObject(message: string) | OtherValue

  const LoginFallback: string := "Error desconocido"
  const ContactsFallback: string := "Error cargando contactos"

  /** `error instanceof Error ? error.message : fallback`. */
  function ErrorText(e: Thrown, fallback: string): (text: string)
    ensures e.ErrorObject? ==> text == e.message
    ensures e.OtherValue? ==> text == fallback
  {
    match e
    case ErrorObject(message) => message
    case OtherValue => fallback
  }

  /** The state the hook starts from, and the one `logout` restores. */
  function InitialProfileState(): (s: ProfileState)
    ensures !s.isLoading && !s.isLoadingContacts && s.authData.None? && s.contacts == [] && s.error.None?
  {
    ProfileState(false, false, None, [], None)
  }

  /** `isAuthenticated`: a user is logged in exactly when credentials are stored. */
  predicate Authenticated(s: ProfileState) {
    s.authData.Some?
  }

  /** `performLogin`, before the `await`. */
  function LoginStarted(prev: ProfileState): (next: ProfileState)
    ensures next.isLoading && next.error.None?
    ensures next.authData == prev.authData && next.contacts == prev.contacts
    ensures next.isLoadingContacts == prev.isLoadingContacts
  {
    prev.(isLoading := true, error := None)
  }

  /** `performLogin`, after the login call returns `credentials`. */
  function LoginSucceeded(prev: ProfileState, credentials: OAuthCredentials): (next: ProfileState)
    ensures !next.isLoading && next.authData == Some(credentials) && next.error.None?
    ensures next.contacts == prev.contacts && next.isLoadingContacts == prev.isLoadingContacts
  {
    prev.(isLoading := false, authData := Some(credentials), error := None)
  }

  /** `performLogin`, after the login call throws. */
  function LoginFailed(prev: ProfileState, e: Thrown): (next: ProfileState)
    ensures !next.isLoading && next.authData.None?
    ensures next.error == Some(ErrorText(e, LoginFallback))
    ensures next.contacts == prev.contacts && next.isLoadingContacts == prev.isLoadingContacts
  {
    prev.(isLoading := false, authData := None, error := Some(ErrorText(e, LoginFallback)))
  }

  /** `loadContacts`, before the `await`. */
  function ContactsStarted(prev: ProfileState): (next: ProfileState)
    ensures next.isLoadingContacts && next.error.None?
    ensures next.authData == prev.authData && next.isLoading == prev.isLoading && next.contacts == prev.contacts
  {
    prev.(isLoadingContacts := true, error := None)
  }

  /** `loadContacts`, after the contacts call returns `page`. */
  function ContactsLoaded(prev: ProfileState, page: ContactsPagination): (next: ProfileState)
    ensures !next.isLoadingContacts && next.contacts == page.rows && next.error.None?
    ensures next.authData == prev.authData && next.isLoading == prev.isLoading
  {
    prev.(isLoadingContacts := false, contacts := page.rows, error := None)
  }

  /** `loadContacts`, after the contacts call throws. */
  function ContactsFailed(prev: ProfileState, e: Thrown): (next: ProfileState)
    ensures !next.isLoadingContacts && next.contacts == []
    ensures next.error == Some(ErrorText(e, ContactsFallback))
    ensures next.authData == prev.authData && next.isLoading == prev.isLoading
  {
    prev.(isLoadingContacts := false, contacts := [], error := Some(ErrorText(e, ContactsFallback)))
  }

  /**
   * The state cell of the hook, writing the client's token store as the
   * actions do. Each method performs one `ProfileAction` on the state and,
   * where it writes the store, on the stored token, as `Perform` defines it.
   */
  class ViewModel {
    var state: ProfileState

    constructor ()
      ensures state == InitialProfileState()
    {
      state := InitialProfileState();
    }

    function IsAuthenticated(): (authenticated: bool)
      reads this
      ensures authenticated <==> state.authData.Some?
    {
      Authenticated(state)
    }

    method BeginLogin()
      modifies this
      ensures state == LoginStarted(old(state))
      ensures forall t :: Perform(Session(old(state), t), StartLogin) == Session(state, t)
    {
      state := LoginStarted(state);
    }

    /** Completes `performLogin` with what the login call returned or threw. */
    method CompleteLogin(store: TokenStore, result: Result<OAuthCredentials, Thrown>)
      modifies this, store
      ensures result.Ok? ==> store.authToken == Some(result.value.accessToken)
      ensures result.Ok? ==> state == LoginSucceeded(old(state), result.value)
      ensures result.Err? ==> store.authToken == old(store.authToken)
      ensures result.Err? ==> state == LoginFailed(old(state), result.error)
      ensures Session(state, store.authToken) == Perform(Session(old(state), old(store.authToken)), FinishLogin(result))
    {
      match result
      case Ok(credentials) =>
        store.SetAuthToken(credentials.accessToken);
        state := LoginSucceeded(state, credentials);
      case Err(e) =>
        state := LoginFailed(state, e);
    }

    method BeginLoadContacts()
      modifies this
      ensures state == ContactsStarted(old(state))
      ensures forall t :: Perform(Session(old(state), t), StartContacts) == Session(state, t)
    {
      state := ContactsStarted(state);
    }

    /** Completes `loadContacts` with what the contacts call returned or threw. */
    method CompleteLoadContacts(result: Result<ContactsPagination, Thrown>)
      modifies this
      ensures result.Ok? ==> state == ContactsLoaded(old(state), result.value)
      ensures result.Err? ==> state == ContactsFailed(old(state), result.error)
      ensures forall t :: Perform(Session(old(state), t), FinishContacts(result)) == Session(state, t)
    {
      match result
      case Ok(page) => state := ContactsLoaded(state, page);
      case Err(e) => state := ContactsFailed(state, e);
    }

    method Logout(store: TokenStore)
      modifies this, store
      ensures store.authToken == None
      ensures state == InitialProfileState()
      ensures Session(state, store.authToken) == Perform(Session(old(state), old(store.authToken)), LogOut)
    {
      store.ClearAuthToken();
      state := InitialProfileState();
    }
  }

  // -----------------------------------------------------------------------
  // The view-model together with the token store, over any sequence of actions

  /** The profile state and the client's stored token, as one value. */
  datatype Session = Session(view: ProfileState, token: Option<string>)

  datatype ProfileAction =
    | StartLogin
    | FinishLogin(login: Result<OAuthCredentials, Thrown>)
    | StartContacts
    | FinishContacts(contacts: Result<ContactsPagination, Thrown>)
    | LogOut

  function Perform(s: Session, a: ProfileAction): (r: Session)
    ensures a.LogOut? ==> r == InitialSession
    ensures a.FinishLogin? && a.login.Ok? ==> r.token == Some(a.login.value.accessToken) && r.view.authData == Some(a.login.value)
    ensures a.FinishLogin? && a.login.Err? ==> r.view.authData.None?
    ensures !a.LogOut? && !(a.FinishLogin? && a.login.Ok?) ==> r.token == s.token
    ensures (a.StartContacts? || a.FinishContacts?) ==> r.view.authData == s.view.authData
  {
    match a
    case StartLogin => s.(view := LoginStarted(s.view))
    case FinishLogin(Ok(c)) => Session(LoginSucceeded(s.view, c), Some(c.accessToken))
    case FinishLogin(Err(e)) => s.(view := LoginFailed(s.view, e))
    case StartContacts => s.(view := ContactsStarted(s.view))
    case FinishContacts(Ok(page)) => s.(view := ContactsLoaded(s.view, page))
    case FinishContacts(Err(e)) => s.(view := ContactsFailed(s.view, e))
    case LogOut => Session(InitialProfileState(), None)
  }

  function PerformAll(s: Session, actions: seq<ProfileAction>): Session
    decreases |actions|
  {
    if actions == [] then s else PerformAll(Perform(s, actions[0]), actions[1..])
  }

  const InitialSession: Session := Session(InitialProfileState(), None)

  /** While the view shows a logged-in user, the client sends that user's access token. */
  ghost predicate TokenMatchesUser(s: Session) {
    Authenticated(s.view) ==> s.token == Some(s.view.authData.value.accessToken)
  }

  lemma {:induction false} TokenMatchesUserAlways(s: Session, actions: seq<ProfileAction>)
    requires TokenMatchesUser(s)
    ensures TokenMatchesUser(PerformAll(s, actions))
    decreases |actions|
  {
    if actions != [] {
      TokenMatchesUserAlways(Perform(s, actions[0]), actions[1..]);
    }
  }

  /** From the hook's first render, along any actions, the stored token is the shown user's. */
  lemma TokenMatchesUserFromStart(actions: seq<ProfileAction>)
    ensures TokenMatchesUser(PerformAll(InitialSession, actions))
  {
    assert TokenMatchesUser(InitialSession);
    TokenMatchesUserAlways(InitialSession, actions);
  }

  /** The last login outcome or logout in a sequence of actions, if any. */
  function LastAuthAction(actions: seq<ProfileAction>): (a: Option<ProfileAction>)
    ensures a.Some? ==> a.value.FinishLogin? || a.value.LogOut?
    decreases |actions|
  {
    if actions == [] then None
    else
      var last := actions[|actions| - 1];
      if last.FinishLogin? || last.LogOut? then Some(last) else LastAuthAction(actions[..|actions| - 1])
  }

  lemma {:induction false} PerformAllSnoc(s: Session, actions: seq<ProfileAction>, a: ProfileAction)
    ensures PerformAll(s, actions + [a]) == Perform(PerformAll(s, actions), a)
    decreases |actions|
  {
    if actions == [] {
      assert actions + [a] == [a];
      assert [a][1..] == [];
    } else {
      assert (actions + [a])[1..] == actions[1..] + [a];
      PerformAllSnoc(Perform(s, actions[0]), actions[1..], a);
    }
  }

  /**
   * The user is authenticated after a sequence of actions exactly when the
   * last login outcome or logout in it was a successful login (or, when
   * there was none, when they were authenticated before).
   */
  lemma {:induction false} AuthenticatedIffLastLoginSucceeded(s: Session, actions: seq<ProfileAction>)
    ensures Authenticated(PerformAll(s, actions).view) <==>
      match LastAuthAction(actions)
      case None => Authenticated(s.view)
      case Some(a) => a.FinishLogin? && a.login.Ok?
    decreases |actions|
  {
    if actions != [] {
      var init, last := actions[..|actions| - 1], actions[|actions| - 1];
      assert actions == init + [last];
      PerformAllSnoc(s, init, last);
      AuthenticatedIffLastLoginSucceeded(s, init);
    }
  }

  /** A run of contact actions never changes who is logged in or the login flag. */
  lemma {:induction false} ContactsLeaveLoginAlone(s: Session, actions: seq<ProfileAction>)
    requires forall i :: 0 <= i < |actions| ==> actions[i].StartContacts? || actions[i].FinishContacts?
    ensures PerformAll(s, actions).view.authData == s.view.authData
    ensures PerformAll(s, actions).view.isLoading == s.view.isLoading
    ensures PerformAll(s, actions).token == s.token
    decreases |actions|
  {
    if actions != [] {
      ContactsLeaveLoginAlone(Perform(s, actions[0]), actions[1..]);
    }
  }

  /** Logging out from any session gives the initial session, so doing it twice changes nothing more. */
  lemma LogoutResets(s: Session)
    ensures Perform(s, LogOut) == InitialSession
    ensures Perform(Perform(s, LogOut), LogOut) == Perform(s, LogOut)
  {
  }

  /** Login success after the begin step: authenticated, not loading, no error, the token stored. */
  lemma LoginSuccessAuthenticates(s: Session, c: OAuthCredentials)
    ensures var t := Perform(Perform(s, StartLogin), FinishLogin(Ok(c)));
      && Authenticated(t.view) && !t.view.isLoading && t.view.error.None?
      && t.token == Some(c.accessToken) && t.view.contacts == s.view.contacts
  {
  }

  /**
   * Login failure after the begin step: not authenticated, an error
   * message, the contacts kept, and the previously stored token kept too.
   */
  lemma LoginFailureDeauthenticates(s: Session, e: Thrown)
    ensures var t := Perform(Perform(s, StartLogin), FinishLogin(Err(e)));
      && !Authenticated(t.view) && !t.view.isLoading
      && t.view.error == Some(ErrorText(e, LoginFallback))
      && t.token == s.token && t.view.contacts == s.view.contacts
  {
  }

  /**
   * A failed second login shows the user as logged out but leaves the first
   * login's token in the store, so later requests still carry it.
   */
  lemma FailedReloginKeepsToken(c: OAuthCredentials, e: Thrown)
    requires c.accessToken != ""
    ensures var loggedIn := Perform(Perform(InitialSession, StartLogin), FinishLogin(Ok(c)));
      var t := Perform(Perform(loggedIn, StartLogin), FinishLogin(Err(e)));
      && !Authenticated(t.view)
      && AuthorizationHeader(t.token) == "Bearer " + c.accessToken
  {
  }
}
