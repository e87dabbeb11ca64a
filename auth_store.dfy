/** The authentication store: the current user, the current session and a
    busy flag, with the operations that drive sign-in, sign-up, sign-out,
    password reset and profile maintenance against the remote services.

    Every remote call is replaced by an outcome the caller supplies. The
    remote side that the store writes to (the `profiles` table, the
    `avatars` bucket) is the `Backend` object, which also keeps the log of
    the remote calls the store issued. */
module AuthStore {
  import opened AuthTypes
  import AvatarKey

  /** A row of the `profiles` table, keyed by the user's id. */
  datatype Profile = Profile(
    id: string,
    fullName: Option<string>,
    phone: Option<string>,
    avatarUrl: Option<string>,
    createdAt: string,
    updatedAt: string)

  /** The fields an `updateProfile` call may carry; an absent one is left alone. */
  datatype ProfileChanges = ProfileChanges(fullName: Option<string>, phone: Option<string>, avatarUrl: Option<string>)

  /** What `signInWithPassword` returns on success. */
  datatype AuthData = AuthData(user: User, session: Session)

  /** What `signUp` returns on success: the session is absent while the
      e-mail address is unconfirmed, the user when sign-up is deferred. */
  datatype SignUpData = SignUpData(user: Option<User>, session: Option<Session>)

  /** What `signInWithOAuth` returns: the provider and the URL to go to. */
  datatype OAuthData = OAuthData(provider: string, url: string)

  /** A remote call the store issued, with the arguments it passed. */
  datatype Request =
    | SignInWithPassword(email: string, password: string)
    | SignInWithOAuth(provider: string, redirectTo: string)
    | SignUp(email: string, password: string, fullName: string)
    | SignOut
    | ResetPasswordForEmail(email: string, redirectTo: string)
    | UpdateUser(password: string)
    | InsertProfile(row: Profile)
    | UpdateProfileRow(id: string, changes: ProfileChanges, updatedAt: string)
    | UploadAvatarObject(key: string)
    | SelectProfile(id: string)
    | GetSession
    | SubscribeAuthChanges

  const GitHub: string := "github"
  const DashboardRoute: string := "/dashboard"
  const ResetPasswordRoute: string := "/reset-password"

  /** The row `createProfile` inserts: the id and full name, no phone or
      avatar yet, and the two timestamps read from the clock one after the
      other (they may differ). */
  function NewProfile(id: string, fullName: string, createdAt: string, updatedAt: string): (p: Profile)
    ensures p.id == id && p.fullName == Some(fullName)
    ensures p.phone == None && p.avatarUrl == None
    ensures p.createdAt == createdAt && p.updatedAt == updatedAt
  {
    Profile(id, Some(fullName), None, None, createdAt, updatedAt)
  }

  /** `supplied` if given, else `current`: one field of `{...row, ...updates}`. */
  function Override<T>(current: Option<T>, supplied: Option<T>): Option<T>
  {
    if supplied.Some? then supplied else current
  }

  /** The row after `update({...updates, updated_at: now})`. */
  function ApplyChanges(p: Profile, c: ProfileChanges, now: string): (q: Profile)
    ensures q.id == p.id && q.createdAt == p.createdAt && q.updatedAt == now
    ensures c.fullName.Some? ==> q.fullName == c.fullName
    ensures c.phone.Some? ==> q.phone == c.phone
    ensures c.avatarUrl.Some? ==> q.avatarUrl == c.avatarUrl
    ensures c.fullName.None? ==> q.fullName == p.fullName
    ensures c.phone.None? ==> q.phone == p.phone
    ensures c.avatarUrl.None? ==> q.avatarUrl == p.avatarUrl
  {
    p.(fullName := Override(p.fullName, c.fullName),
       phone := Override(p.phone, c.phone),
       avatarUrl := Override(p.avatarUrl, c.avatarUrl),
       updatedAt := now)
  }

  /** Two updates in a row amount to one carrying the later value of each field. */
  function MergeChanges(first: ProfileChanges, second: ProfileChanges): ProfileChanges
  {
    ProfileChanges(
      Override(first.fullName, second.fullName),
      Override(first.phone, second.phone),
      Override(first.avatarUrl, second.avatarUrl))
  }

  /** The table after `update(...).eq("id", id)`: only the row keyed by `id`
      changes, and a missing row is not an error (nothing matches). */
  function UpdateRow(profiles: map<string, Profile>, id: string, c: ProfileChanges, now: string): (result: map<string, Profile>)
    ensures result.Keys == profiles.Keys
    ensures forall k :: k in profiles && k != id ==> result[k] == profiles[k]
    ensures id in profiles ==> result[id] == ApplyChanges(profiles[id], c, now)
  {
    if id in profiles then profiles[id := ApplyChanges(profiles[id], c, now)] else profiles
  }

  /** The changes `uploadAvatar` chains into `updateProfile`: applied to any
      row, they set the avatar address and the timestamp and nothing else. */
  function AvatarChange(url: string): (c: ProfileChanges)
    ensures forall p, now :: ApplyChanges(p, c, now) == p.(avatarUrl := Some(url), updatedAt := now)
  {
    ProfileChanges(None, None, Some(url))
  }

  /** Repeating an update changes nothing more. */
  lemma ApplyChangesIdempotent(p: Profile, c: ProfileChanges, now: string)
    ensures ApplyChanges(ApplyChanges(p, c, now), c, now) == ApplyChanges(p, c, now)
  {
  }

  /** Two successive updates equal one with the merged fields and the later timestamp. */
  lemma ApplyChangesCompose(p: Profile, c1: ProfileChanges, t1: string, c2: ProfileChanges, t2: string)
    ensures ApplyChanges(ApplyChanges(p, c1, t1), c2, t2) == ApplyChanges(p, MergeChanges(c1, c2), t2)
  {
  }

  /** The remote side: the `profiles` table, the keys present in the
      `avatars` bucket, and the log of calls the client issued. */
  class Backend {
    var profiles: map<string, Profile>
    var avatarKeys: set<string>
    var requests: seq<Request>

    constructor (profiles: map<string, Profile>, avatarKeys: set<string>)
      ensures this.profiles == profiles && this.avatarKeys == avatarKeys && requests == []
    {
      this.profiles := profiles;
      this.avatarKeys := avatarKeys;
      requests := [];
    }

    /** Every row sits under its own id, the table's primary key. */
    predicate RowsKeyedById()
      reads this
    {
      forall k :: k in profiles ==> profiles[k].id == k
    }

    /** Logs one remote call. */
    method Record(q: Request)
      modifies this`requests
      ensures requests == old(requests) + [q]
    {
      requests := requests + [q];
    }
  }

  class Store {
    var user: Option<User>
    var session: Option<Session>
    var loading: bool
    const backend: Backend

    /** The store's invariant: a user is held exactly when a session is. */
    predicate Consistent()
      reads this
    {
      user.None? <==> session.None?
    }

    constructor (backend: Backend)
      ensures user == None && session == None && !loading
      ensures this.backend == backend
      ensures Consistent()
    {
      user := None;
      session := None;
      loading := false;
      this.backend := backend;
    }

    /** `isAuthenticated`: a user is held; under the invariant, equally a session is. */
    function IsAuthenticated(): (b: bool)
      reads this
      ensures b <==> user.Some?
      ensures Consistent() ==> (b <==> session.Some?)
    {
      user.Some?
    }

    /** Replaces the user and the session, without checking them. */
    method SetAuth(newUser: Option<User>, newSession: Option<Session>)
      modifies this`user, this`session
      ensures user == newUser && session == newSession && loading == old(loading)
      ensures Consistent() <==> (newUser.None? <==> newSession.None?)
    {
      user := newUser;
      session := newSession;
    }

    method Login(email: string, password: string, reply: Result<AuthData>) returns (r: Result<AuthData>)
      modifies this, backend`requests
      ensures r == reply && !loading
      ensures backend.requests == old(backend.requests) + [SignInWithPassword(email, password)]
      ensures reply.Ok? ==> user == Some(reply.value.user) && session == Some(reply.value.session)
      ensures reply.Err? ==> user == old(user) && session == old(session)
      ensures old(Consistent()) ==> Consistent()
    {
      loading := true;
      backend.Record(SignInWithPassword(email, password));
      match reply {
        case Ok(data) =>
          SetAuth(Some(data.user), Some(data.session));
          r := Ok(data);
        case Err(e) =>
          r := Err(e);
      }
      loading := false;
    }

    /** Starts the GitHub OAuth redirect flow, returning to `${origin}/dashboard`;
        the session arrives later through the session-change handler. */
    method LoginWithGitHub(origin: string, reply: Result<OAuthData>) returns (r: Result<OAuthData>)
      modifies this`loading, backend`requests
      ensures r == reply && !loading
      ensures user == old(user) && session == old(session)
      ensures backend.requests == old(backend.requests) + [SignInWithOAuth(GitHub, origin + DashboardRoute)]
    {
      loading := true;
      backend.Record(SignInWithOAuth(GitHub, origin + DashboardRoute));
      r := reply;
      loading := false;
    }

    /** Inserts the new user's profile row. */
    method CreateProfile(userId: string, fullName: string, status: Result<()>,
                         createdAt: string, updatedAt: string) returns (r: Result<()>)
      modifies backend
      ensures backend.requests == old(backend.requests) + [InsertProfile(NewProfile(userId, fullName, createdAt, updatedAt))]
      ensures backend.avatarKeys == old(backend.avatarKeys)
      ensures r == if status.Err? then status
                   else if userId in old(backend.profiles) then Err(DuplicateKey(userId))
                   else Ok(())
      ensures backend.profiles == if r.Ok? then old(backend.profiles)[userId := NewProfile(userId, fullName, createdAt, updatedAt)]
                                  else old(backend.profiles)
      ensures old(backend.RowsKeyedById()) ==> backend.RowsKeyedById()
    {
      backend.Record(InsertProfile(NewProfile(userId, fullName, createdAt, updatedAt)));
      if status.Err? {
        r := status;
      } else if userId in backend.profiles {
        r := Err(DuplicateKey(userId));
      } else {
        backend.profiles := backend.profiles[userId := NewProfile(userId, fullName, createdAt, updatedAt)];
        r := Ok(());
      }
    }

    /** Creates the account and, when the service returns a user, that
        user's profile row; a failed insert is reported, the account stays. */
    method Register(email: string, password: string, fullName: string, reply: Result<SignUpData>,
                    insert: Result<()>, createdAt: string, updatedAt: string) returns (r: Result<SignUpData>)
      modifies this`loading, backend
      ensures !loading && user == old(user) && session == old(session)
      ensures backend.avatarKeys == old(backend.avatarKeys)
      ensures !(reply.Ok? && reply.value.user.Some?) ==>
        && r == reply
        && backend.requests == old(backend.requests) + [SignUp(email, password, fullName)]
        && backend.profiles == old(backend.profiles)
      ensures reply.Ok? && reply.value.user.Some? ==>
        var id := reply.value.user.value.id;
        var row := NewProfile(id, fullName, createdAt, updatedAt);
        && backend.requests == old(backend.requests) + [SignUp(email, password, fullName), InsertProfile(row)]
        && r == (if insert.Err? then Err(insert.error)
                 else if id in old(backend.profiles) then Err(DuplicateKey(id))
                 else reply)
        && backend.profiles == if r.Ok? then old(backend.profiles)[id := row] else old(backend.profiles)
      ensures old(backend.RowsKeyedById()) ==> backend.RowsKeyedById()
    {
      loading := true;
      backend.Record(SignUp(email, password, fullName));
      r := reply;
      if reply.Ok? && reply.value.user.Some? {
        var created := CreateProfile(reply.value.user.value.id, fullName, insert, createdAt, updatedAt);
        if created.Err? {
          r := Err(created.error);
        }
      }
      loading := false;
    }

    method Logout(status: Result<()>) returns (r: Result<()>)
      modifies this, backend`requests
      ensures r == status && !loading
      ensures backend.requests == old(backend.requests) + [SignOut]
      ensures status.Ok? ==> user == None && session == None
      ensures status.Err? ==> user == old(user) && session == old(session)
      ensures old(Consistent()) ==> Consistent()
    {
      loading := true;
      backend.Record(SignOut);
      if status.Ok? {
        SetAuth(None, None);
      }
      r := status;
      loading := false;
    }

    /** Asks for a reset e-mail that links back to `${origin}/reset-password`. */
    method ForgotPassword(email: string, origin: string, status: Result<()>) returns (r: Result<()>)
      modifies this`loading, backend`requests
      ensures r == status && !loading
      ensures user == old(user) && session == old(session)
      ensures backend.requests == old(backend.requests) + [ResetPasswordForEmail(email, origin + ResetPasswordRoute)]
    {
      loading := true;
      backend.Record(ResetPasswordForEmail(email, origin + ResetPasswordRoute));
      r := status;
      loading := false;
    }

    /** Sets a new password for the user of the reset link's session. */
    method ResetPassword(password: string, status: Result<()>) returns (r: Result<()>)
      modifies this`loading, backend`requests
      ensures r == status && !loading
      ensures user == old(user) && session == old(session)
      ensures backend.requests == old(backend.requests) + [UpdateUser(password)]
    {
      loading := true;
      backend.Record(UpdateUser(password));
      r := status;
      loading := false;
    }

    /** Updates the signed-in user's profile row; with no user it fails
        before touching anything. */
    method UpdateProfile(changes: ProfileChanges, status: Result<()>, now: string) returns (r: Result<()>)
      modifies this`loading, backend
      ensures user == old(user) && session == old(session)
      ensures old(user).None? ==> r == Err(NoUserLoggedIn) && loading == old(loading) && unchanged(backend)
      ensures old(user).Some? ==>
        var id := old(user).value.id;
        && !loading
        && r == status
        && backend.requests == old(backend.requests) + [UpdateProfileRow(id, changes, now)]
        && backend.avatarKeys == old(backend.avatarKeys)
        && backend.profiles == if status.Ok? then UpdateRow(old(backend.profiles), id, changes, now)
                               else old(backend.profiles)
      ensures old(backend.RowsKeyedById()) ==> backend.RowsKeyedById()
    {
      if user.None? {
        return Err(NoUserLoggedIn);
      }
      loading := true;
      var id := user.value.id;
      backend.Record(UpdateProfileRow(id, changes, now));
      if status.Ok? {
        backend.profiles := UpdateRow(backend.profiles, id, changes, now);
      }
      r := status;
      loading := false;
    }

    /** Stores the picture under `${user.id}.${ext}` (overwriting), then
        records `publicUrl`, the address the bucket gives that key, in the
        user's profile row; returns that address. With no user it fails
        before touching anything. */
    method UploadAvatar(fileName: string, upload: Result<()>, publicUrl: string, update: Result<()>,
                        now: string) returns (r: Result<string>)
      modifies this`loading, backend
      ensures user == old(user) && session == old(session)
      ensures old(user).None? ==> r == Err(NoUserLoggedIn) && loading == old(loading) && unchanged(backend)
      ensures old(user).Some? && upload.Err? ==>
        var key := AvatarKey.StorageKey(old(user).value.id, fileName);
        && !loading
        && r == Err(upload.error)
        && backend.requests == old(backend.requests) + [UploadAvatarObject(key)]
        && backend.avatarKeys == old(backend.avatarKeys)
        && backend.profiles == old(backend.profiles)
      ensures old(user).Some? && upload.Ok? ==>
        var id := old(user).value.id;
        var key := AvatarKey.StorageKey(id, fileName);
        && !loading
        && r == (if update.Ok? then Ok(publicUrl) else Err(update.error))
        && backend.requests == old(backend.requests) + [UploadAvatarObject(key), UpdateProfileRow(id, AvatarChange(publicUrl), now)]
        && backend.avatarKeys == old(backend.avatarKeys) + {key}
        && backend.profiles == if update.Ok? then UpdateRow(old(backend.profiles), id, AvatarChange(publicUrl), now)
                               else old(backend.profiles)
      ensures old(backend.RowsKeyedById()) ==> backend.RowsKeyedById()
    {
      if user.None? {
        return Err(NoUserLoggedIn);
      }
      loading := true;
      var key := AvatarKey.StorageKey(user.value.id, fileName);
      backend.Record(UploadAvatarObject(key));
      if upload.Err? {
        r := Err(upload.error);
      } else {
        backend.avatarKeys := backend.avatarKeys + {key};
        var updated := UpdateProfile(AvatarChange(publicUrl), update, now);
        r := if updated.Ok? then Ok(publicUrl) else Err(updated.error);
      }
      loading := false;
    }

    /** Reads a profile row; any failure, including a missing row, gives `None`. */
    method GetProfile(userId: string, status: Result<()>) returns (p: Option<Profile>)
      modifies backend`requests
      ensures backend.requests == old(backend.requests) + [SelectProfile(userId)]
      ensures p.Some? <==> status.Ok? && userId in backend.profiles
      ensures p.Some? ==> p.value == backend.profiles[userId]
      ensures p.Some? && backend.RowsKeyedById() ==> p.value.id == userId
    {
      backend.Record(SelectProfile(userId));
      if status.Ok? && userId in backend.profiles {
        p := Some(backend.profiles[userId]);
      } else {
        p := None;
      }
    }

    /** Adopts the session the identity service already holds, if any;
        otherwise, or on failure, leaves the state alone. Never fails. */
    method InitializeAuth(reply: Result<Option<Session>>)
      modifies this`user, this`session, backend`requests
      ensures backend.requests == old(backend.requests) + [GetSession]
      ensures reply.Ok? && reply.value.Some? ==>
        user == Some(reply.value.value.user) && session == reply.value
      ensures !(reply.Ok? && reply.value.Some?) ==> user == old(user) && session == old(session)
      ensures old(Consistent()) ==> Consistent()
    {
      backend.Record(GetSession);
      if reply.Ok? && reply.value.Some? {
        var s := reply.value.value;
        SetAuth(Some(s.user), Some(s));
      }
    }
  }
}
