/** The authentication context: the current user, the loading flag and the
    session kept in the key-value store, with the demo login, signup, logout
    and profile updates. Simulated network delays are one atomic step each;
    the clock's ISO text and the numeric stamp used in ids are parameters. */
module Auth {
  import opened Types
  import opened Storage

  datatype State = State(user: Option<User>, loading: bool, store: Store)

  /** `isAdmin`. */
  function IsAdmin(user: Option<User>): bool {
    user.Some? && user.value.role == Admin
  }

  /** `isClinician`: clinicians and admins. */
  function IsClinician(user: Option<User>): bool {
    user.Some? && (user.value.role == Clinician || user.value.role == Admin)
  }

  /** The role flags as sets of roles: admin is the stronger flag, and
      without a user neither holds. */
  lemma RoleFlags(user: Option<User>)
    ensures IsAdmin(user) <==> user.Some? && user.value.role in {Admin}
    ensures IsClinician(user) <==> user.Some? && user.value.role in {Clinician, Admin}
    ensures IsAdmin(user) ==> IsClinician(user)
    ensures user.Some? && user.value.role == UserRole ==> !IsClinician(user)
    ensures user.None? ==> !IsAdmin(user) && !IsClinician(user)
  {
  }

  /** Both session keys hold the current user and a non-empty token. */
  predicate SessionStored(s: State) {
    && s.user.Some?
    && UserKey in s.store && s.store[UserKey] == UserObject(s.user.value)
    && TokenKey in s.store && Truthy(Some(s.store[TokenKey]))
  }

  /** Stores the user and the token, then makes the user current. */
  function StartSession(s: State, u: User, token: string): (r: State)
    requires token != ""
    ensures SessionStored(r) && r.user == Some(u) && !r.loading
    ensures r.store[TokenKey] == Text(token)
    ensures forall k :: k != UserKey && k != TokenKey && k in s.store ==> k in r.store && r.store[k] == s.store[k]
  {
    State(Some(u), false, SetItem(SetItem(s.store, UserKey, UserObject(u)), TokenKey, Text(token)))
  }

  /** The demo account chosen by e-mail address. */
  function DemoUser(email: string, now: string): (u: User)
    ensures u.email == email && u.lastLogin == now
  {
    if email == "admin@snapfood.com" then
      User("1", email, "Dr. Amina Kano", Admin,
           Some("https://images.pexels.com/photos/5407206/pexels-photo-5407206.jpeg?w=150"),
           Normal, "2024-01-15T10:00:00Z", now)
    else if email == "clinician@snapfood.com" then
      User("2", email, "Dr. Chidi Okafor", Clinician,
           Some("https://images.pexels.com/photos/612608/pexels-photo-612608.jpeg?w=150"),
           Normal, "2024-02-01T09:30:00Z", now)
    else
      User("3", email, "Fatima Ibrahim", UserRole,
           Some("https://images.pexels.com/photos/2379004/pexels-photo-2379004.jpeg?w=150"),
           Diabetic, "2024-03-10T14:20:00Z", now)
  }

  /** `login`: the password is never looked at. */
  function Login(s: State, email: string, password: string, stamp: string, now: string): (r: State)
    ensures SessionStored(r) && !r.loading
    ensures r.user == Some(DemoUser(email, now))
    ensures forall k :: k != UserKey && k != TokenKey && k in s.store ==> k in r.store && r.store[k] == s.store[k]
  {
    var u := DemoUser(email, now);
    StartSession(s, u, "mock_jwt_token_" + u.id + "_" + stamp)
  }

  /** `loginWithGoogle`: a fresh plain user with the default condition. */
  function LoginWithGoogle(s: State, stamp: string, now: string): (r: State)
    ensures SessionStored(r) && !r.loading
    ensures r.user.value.role == UserRole && r.user.value.healthCondition == Normal
    ensures r.user.value.email == "user@gmail.com"
    ensures forall k :: k != UserKey && k != TokenKey && k in s.store ==> k in r.store && r.store[k] == s.store[k]
  {
    var u := User("google_" + stamp, "user@gmail.com", "Google User", UserRole,
                  Some("https://images.pexels.com/photos/2379004/pexels-photo-2379004.jpeg?w=150"),
                  Normal, now, now);
    StartSession(s, u, "google_jwt_token_" + u.id)
  }

  /** `signup`: always a plain user with the default condition and no
      avatar, keeping the given e-mail and name. */
  function Signup(s: State, email: string, password: string, name: string, stamp: string, now: string): (r: State)
    ensures SessionStored(r) && !r.loading
    ensures r.user.value.role == UserRole && r.user.value.healthCondition == Normal
    ensures r.user.value.email == email && r.user.value.name == name
    ensures forall k :: k != UserKey && k != TokenKey && k in s.store ==> k in r.store && r.store[k] == s.store[k]
  {
    var u := User("user_" + stamp, email, name, UserRole, None, Normal, now, now);
    StartSession(s, u, "jwt_token_" + u.id)
  }

  /** `logout`: both session keys go and no user is current. */
  function Logout(s: State): (r: State)
    ensures r.user.None? && UserKey !in r.store && TokenKey !in r.store
    ensures forall k :: k != UserKey && k != TokenKey && k in s.store ==> k in r.store && r.store[k] == s.store[k]
    ensures r.loading == s.loading
  {
    s.(user := None, store := RemoveItem(RemoveItem(s.store, UserKey), TokenKey))
  }

  /** `updateHealthCondition`: a no-op without a user; otherwise only the
      condition changes, and the stored user follows. */
  function UpdateHealthCondition(s: State, c: Condition): (r: State)
    ensures s.user.None? ==> r == s
    ensures s.user.Some? ==>
      && r.user.Some?
      && r.user.value.healthCondition == c
      && r.user.value.(healthCondition := s.user.value.healthCondition) == s.user.value
      && UserKey in r.store && r.store[UserKey] == UserObject(r.user.value)
    ensures r.loading == s.loading
    ensures forall k :: k != UserKey && k in s.store ==> k in r.store && r.store[k] == s.store[k]
  {
    if s.user.None? then s
    else
      var u := s.user.value.(healthCondition := c);
      s.(user := Some(u), store := SetItem(s.store, UserKey, UserObject(u)))
  }

  /** A `Partial<User>`: each field either absent or a new value. */
  datatype UserPatch = UserPatch(
    id: Option<string>,
    email: Option<string>,
    name: Option<string>,
    role: Option<Role>,
    avatar: Option<Option<string>>,
    healthCondition: Option<Condition>,
    createdAt: Option<string>,
    lastLogin: Option<string>)

  const EmptyPatch := UserPatch(None, None, None, None, None, None, None, None)

  function Pick<T>(update: Option<T>, current: T): T {
    if update.Some? then update.value else current
  }

  /** `{ ...user, ...updates }`. */
  function Merge(u: User, p: UserPatch): User {
    User(Pick(p.id, u.id), Pick(p.email, u.email), Pick(p.name, u.name), Pick(p.role, u.role),
         Pick(p.avatar, u.avatar), Pick(p.healthCondition, u.healthCondition),
         Pick(p.createdAt, u.createdAt), Pick(p.lastLogin, u.lastLogin))
  }

  /** `updateProfile`: a no-op without a user; otherwise the merged user
      becomes current and is stored. */
  function UpdateProfile(s: State, p: UserPatch): (r: State)
    ensures s.user.None? ==> r == s
    ensures s.user.Some? ==> r.user.Some? && UserKey in r.store && r.store[UserKey] == UserObject(r.user.value)
    ensures r.loading == s.loading
    ensures forall k :: k != UserKey && k in s.store ==> k in r.store && r.store[k] == s.store[k]
  {
    if s.user.None? then s
    else
      var u := Merge(s.user.value, p);
      s.(user := Some(u), store := SetItem(s.store, UserKey, UserObject(u)))
  }

  /** Field by field, a present update wins and an absent one keeps the
      old value; the empty patch changes nothing. */
  lemma UpdateProfileFields(s: State, p: UserPatch)
    requires s.user.Some?
    ensures var u := s.user.value; var n := UpdateProfile(s, p).user.value;
      && (p.id.Some? ==> n.id == p.id.value) && (p.id.None? ==> n.id == u.id)
      && (p.email.Some? ==> n.email == p.email.value) && (p.email.None? ==> n.email == u.email)
      && (p.name.Some? ==> n.name == p.name.value) && (p.name.None? ==> n.name == u.name)
      && (p.role.Some? ==> n.role == p.role.value) && (p.role.None? ==> n.role == u.role)
      && (p.avatar.Some? ==> n.avatar == p.avatar.value) && (p.avatar.None? ==> n.avatar == u.avatar)
      && (p.healthCondition.Some? ==> n.healthCondition == p.healthCondition.value)
      && (p.healthCondition.None? ==> n.healthCondition == u.healthCondition)
      && (p.createdAt.Some? ==> n.createdAt == p.createdAt.value) && (p.createdAt.None? ==> n.createdAt == u.createdAt)
      && (p.lastLogin.Some? ==> n.lastLogin == p.lastLogin.value) && (p.lastLogin.None? ==> n.lastLogin == u.lastLogin)
    ensures UpdateProfile(s, EmptyPatch).user == s.user
  {
  }

  /** Changing the condition is the profile update that carries only the
      condition. */
  lemma ConditionUpdateIsProfileUpdate(s: State, c: Condition)
    ensures UpdateHealthCondition(s, c) == UpdateProfile(s, EmptyPatch.(healthCondition := Some(c)))
  {
  }

  /** `checkAuth`: restores the stored user when both keys are truthy; a
      user that does not parse removes both keys. Loading ends in every
      case. */
  function CheckAuth(s: State): (r: State)
    ensures !r.loading
  {
    var stored := GetItem(s.store, UserKey);
    var token := GetItem(s.store, TokenKey);
    if Truthy(stored) && Truthy(token) then
      match ParseUser(stored.value)
      case Some(u) => s.(user := Some(u), loading := false)
      case None => s.(loading := false, store := RemoveItem(RemoveItem(s.store, UserKey), TokenKey))
    else s.(loading := false)
  }

  /** The provider as it mounts: no user, loading, then `checkAuth`. */
  function Mount(st: Store): (r: State)
    ensures !r.loading
    ensures r.user.Some? ==>
      && UserKey in st && st[UserKey] == UserObject(r.user.value)
      && TokenKey in st && Truthy(Some(st[TokenKey]))
  {
    CheckAuth(State(None, true, st))
  }

  /** The outcomes of mounting: a user only when both keys are present; an
      unparsable user clears both keys; a missing key touches nothing. */
  lemma MountCases(st: Store)
    ensures UserKey !in st || TokenKey !in st ==> Mount(st) == State(None, false, st)
    ensures UserKey in st && st[UserKey] != Text("") && TokenKey in st && st[TokenKey] != Text("")
            && !st[UserKey].UserObject? ==>
      Mount(st).user.None? && UserKey !in Mount(st).store && TokenKey !in Mount(st).store
  {
  }

  /** A stored session survives a reload: mounting on the store left by
      login, signup or a condition change brings back the same user. */
  lemma SessionSurvivesReload(s: State)
    requires SessionStored(s)
    ensures Mount(s.store).user == s.user
    ensures Mount(s.store).store == s.store
  {
    assert GetItem(s.store, UserKey) == Some(UserObject(s.user.value));
    assert Truthy(GetItem(s.store, TokenKey));
  }

  lemma UpdatesKeepSession(s: State, c: Condition, p: UserPatch)
    requires SessionStored(s)
    ensures SessionStored(UpdateHealthCondition(s, c))
    ensures SessionStored(UpdateProfile(s, p))
  {
    assert UserKey != TokenKey;
  }

  /** A logout survives a reload: mounting on the store it leaves restores
      no user and changes nothing in the store. */
  lemma LogoutSurvivesReload(s: State)
    ensures Mount(Logout(s).store).user.None?
    ensures Mount(Logout(s).store).store == Logout(s).store
  {
  }

  /** The demo login picks the account by e-mail alone. */
  lemma LoginChoosesByEmail(s: State, email: string, password: string, other: string, stamp: string, now: string)
    ensures email == "admin@snapfood.com" ==>
      Login(s, email, password, stamp, now).user.value.role == Admin
      && Login(s, email, password, stamp, now).user.value.healthCondition == Normal
    ensures email == "clinician@snapfood.com" ==>
      Login(s, email, password, stamp, now).user.value.role == Clinician
      && Login(s, email, password, stamp, now).user.value.healthCondition == Normal
    ensures email != "admin@snapfood.com" && email != "clinician@snapfood.com" ==>
      Login(s, email, password, stamp, now).user.value.role == UserRole
      && Login(s, email, password, stamp, now).user.value.healthCondition == Diabetic
    ensures Login(s, email, password, stamp, now) == Login(s, email, other, stamp, now)
  {
  }
}
