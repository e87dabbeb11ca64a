/** The application entry point: it subscribes a handler to the identity
    service's session-change events, then asks the store to adopt any
    existing session. The handler copies a delivered session into the store,
    or clears the store and navigates to the login page on sign-out. */
module AppEntry {
  import opened AuthTypes
  import AuthStore
  import Router

  const SignedInEvent: string := "SIGNED_IN"
  const SignedOutEvent: string := "SIGNED_OUT"
  const TokenRefreshedEvent: string := "TOKEN_REFRESHED"

  /** What the handler does with one event. */
  datatype Reaction =
    | Adopt(session: Session)  // setAuth(session.user, session)
    | SignOut                  // setAuth(null, null), then router.push('/login')
    | Ignore                   // nothing

  /** The handler's dispatch on the event name and the delivered session. */
  function React(event: string, session: Option<Session>): (r: Reaction)
    ensures r.SignOut? <==> event == SignedOutEvent
    ensures r.Adopt? <==> (event == SignedInEvent || event == TokenRefreshedEvent) && session.Some?
    ensures r.Adopt? ==> session == Some(r.session)
  {
    if event == SignedInEvent && session.Some? then Adopt(session.value)
    else if event == SignedOutEvent then SignOut
    else if event == TokenRefreshedEvent && session.Some? then Adopt(session.value)
    else Ignore
  }

  /** Any event other than the three named ones is ignored, whatever it carries. */
  lemma OtherEventsIgnored(event: string, session: Option<Session>)
    requires event != SignedInEvent && event != SignedOutEvent && event != TokenRefreshedEvent
    ensures React(event, session) == Ignore
  {
  }

  /** Sign-in and token refresh without a session are ignored. */
  lemma SessionlessEventsIgnored(event: string)
    requires event == SignedInEvent || event == TokenRefreshedEvent
    ensures React(event, None) == Ignore
  {
  }

  /** The login page the handler navigates to on sign-out is let through by
      the guard, since the identity service then reports no session. */
  lemma SignOutNavigationIsAllowed(from: string)
    ensures Router.BeforeEach(Router.LoginPath, from, None) == Router.Allow
  {
    Router.RouteTableFlags();
  }

  class App {
    const store: AuthStore.Store
    var navigations: seq<string>

    constructor (store: AuthStore.Store)
      ensures this.store == store && navigations == []
    {
      this.store := store;
      navigations := [];
    }

    /** Subscribes the handler, then initializes the store: the subscription
        is issued first, and `initializeAuth` exactly once after it. */
    method Start(initial: Result<Option<Session>>)
      modifies store`user, store`session, store.backend`requests
      ensures store.backend.requests == old(store.backend.requests) + [AuthStore.SubscribeAuthChanges, AuthStore.GetSession]
      ensures initial.Ok? && initial.value.Some? ==>
        store.user == Some(initial.value.value.user) && store.session == initial.value
      ensures !(initial.Ok? && initial.value.Some?) ==>
        store.user == old(store.user) && store.session == old(store.session)
      ensures navigations == old(navigations)
      ensures old(store.Consistent()) ==> store.Consistent()
    {
      store.backend.Record(AuthStore.SubscribeAuthChanges);
      store.InitializeAuth(initial);
    }

    /** The session-change handler. It never touches the busy flag or the
        remote side, and only a sign-out navigates. */
    method OnAuthStateChange(event: string, session: Option<Session>)
      modifies store`user, store`session, this`navigations
      ensures store.loading == old(store.loading) && unchanged(store.backend)
      ensures match React(event, session)
        case Adopt(s) =>
          store.user == Some(s.user) && store.session == Some(s) && navigations == old(navigations)
        case SignOut =>
          store.user == None && store.session == None && navigations == old(navigations) + [Router.LoginPath]
        case Ignore =>
          store.user == old(store.user) && store.session == old(store.session) && navigations == old(navigations)
      ensures old(store.Consistent()) ==> store.Consistent()
    {
      if event == SignedInEvent && session.Some? {
        store.SetAuth(Some(session.value.user), session);
      } else if event == SignedOutEvent {
        store.SetAuth(None, None);
        navigations := navigations + [Router.LoginPath];
      } else if event == TokenRefreshedEvent && session.Some? {
        store.SetAuth(Some(session.value.user), session);
      }
    }
  }
}
