/** Clients of the store and the entry point that play through usage
    scenarios, on fresh objects, using only the contracts. */
module Scenarios {
  import opened AuthTypes
  import opened AuthStore
  import AppEntry
  import Router
  import AvatarKey

  /** Clearing the state twice leaves it as clearing it once does. */
  method ClearTwiceIsClearOnce(u: Option<User>, s: Option<Session>, busy: bool) returns (once: Store, twice: Store)
    ensures once.user == twice.user && once.session == twice.session && once.loading == twice.loading
    ensures once.user == None && once.session == None && once.loading == busy
  {
    var b := new Backend(map[], {});
    once := new Store(b);
    twice := new Store(b);
    once.SetAuth(u, s);
    twice.SetAuth(u, s);
    once.loading := busy;
    twice.loading := busy;
    once.SetAuth(None, None);
    twice.SetAuth(None, None);
    twice.SetAuth(None, None);
  }

  /** A successful password sign-in stores the returned pair and settles the busy flag. */
  method LoginSucceeds(i: User, s: Session) returns (st: Store, r: Result<AuthData>)
    ensures r == Ok(AuthData(i, s))
    ensures st.user == Some(i) && st.session == Some(s) && !st.loading && st.IsAuthenticated()
  {
    var b := new Backend(map[], {});
    st := new Store(b);
    r := st.Login("a@x.com", "pw", Ok(AuthData(i, s)));
  }

  /** Updating the profile with nobody signed in fails without a remote call. */
  method UpdateWithoutUser(rows: map<string, Profile>) returns (st: Store, r: Result<()>)
    ensures r == Err(NoUserLoggedIn)
    ensures st.backend.requests == [] && st.backend.profiles == rows && !st.loading
  {
    var b := new Backend(rows, {});
    st := new Store(b);
    r := st.UpdateProfile(ProfileChanges(None, Some("555"), None), Ok(()), "t1");
  }

  /** User `U1` uploading `me.png` stores the picture under `U1.png` and
      records its address in the profile row. */
  method UploadForU1(s: Session, row: Profile, url: string) returns (st: Store, r: Result<string>)
    ensures r == Ok(url)
    ensures st.backend.avatarKeys == {"U1.png"}
    ensures "U1" in st.backend.profiles
    ensures st.backend.profiles["U1"] == row.(avatarUrl := Some(url), updatedAt := "t2")
  {
    var b := new Backend(map["U1" := row], {});
    st := new Store(b);
    st.SetAuth(Some(User("U1", "u1@x.com")), Some(s));
    AvatarKey.StorageKeyExample();
    r := st.UploadAvatar("me.png", Ok(()), url, Ok(()), "t2");
  }

  /** A successful registration followed by a successful read gives back a
      profile with the registered full name. */
  method RegisterThenFetch(u: User, fullName: string, rows: map<string, Profile>) returns (st: Store, p: Option<Profile>)
    requires u.id !in rows
    ensures p.Some? && p.value.id == u.id && p.value.fullName == Some(fullName)
    ensures st.user == None && st.session == None && !st.loading
  {
    var b := new Backend(rows, {});
    st := new Store(b);
    var r := st.Register("a@x.com", "pw", fullName, Ok(SignUpData(Some(u), None)), Ok(()), "t0", "t1");
    p := st.GetProfile(u.id, Ok(()));
  }

  /** A sign-out notification clears the state and navigates to `/login`
      exactly once, which the guard then lets through. */
  method SignedOutNotification(s: Session) returns (app: AppEntry.App)
    ensures app.store.user == None && app.store.session == None
    ensures app.navigations == [Router.LoginPath]
    ensures Router.BeforeEach(app.navigations[0], "/dashboard", app.store.session) == Router.Allow
  {
    var b := new Backend(map[], {});
    var st := new Store(b);
    app := new AppEntry.App(st);
    app.Start(Ok(Some(s)));
    app.OnAuthStateChange(AppEntry.SignedOutEvent, Some(s));
    AppEntry.SignOutNavigationIsAllowed("/dashboard");
  }
}
