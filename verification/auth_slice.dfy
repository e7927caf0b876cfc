/** The authentication reducer: the session holds the current user (possibly none) and
    an `isAuthenticated` flag, and changes on login, logout and a profile-image update. */
module AuthSlice {
  import opened Wrappers

  /** The user record received from the login service. The fields the screens read are
      named; the rest of the payload (id, tokens, gender, ...) is kept in `extra`. */
  datatype User = User(
    username: string,
    email: string,
    firstName: Option<string>,
    lastName: Option<string>,
    phone: Option<string>,
    profileImage: Option<string>,
    extra: map<string, string>)

  datatype Session = Session(user: Option<User>, isAuthenticated: bool)

  /** The session invariant: authenticated exactly when a user is present. */
  predicate Consistent(s: Session)
  {
    s.isAuthenticated <==> s.user.Some?
  }

  /** `u` and `v` agree on every field except the profile image. */
  predicate SameExceptImage(u: User, v: User)
  {
    && u.username == v.username
    && u.email == v.email
    && u.firstName == v.firstName
    && u.lastName == v.lastName
    && u.phone == v.phone
    && u.extra == v.extra
  }

  /** The slice's `initialState`. */
  function InitialState(): (s: Session)
    ensures s.user.None? && !s.isAuthenticated
    ensures Consistent(s)
  {
    Session(None, false)
  }

  /** `loginSuccess(payload)`: stores the payload as the user, unchecked, and marks the
      session authenticated. A `null` payload is modelled as `None`. */
  function LoginSuccess(s: Session, payload: Option<User>): (r: Session)
    ensures r.user == payload
    ensures r.isAuthenticated
    ensures payload.Some? ==> Consistent(r)
  {
    Session(payload, true)
  }

  /** `logout()`: forgets the user from any state. */
  function Logout(s: Session): (r: Session)
    ensures r.user.None? && !r.isAuthenticated
    ensures Consistent(r)
  {
    Session(None, false)
  }

  /** `updateProfileImage(uri)`: replaces only the profile image of the present user;
      without a user nothing changes. */
  function UpdateProfileImage(s: Session, uri: string): (r: Session)
    ensures s.user.None? ==> r == s
    ensures s.user.Some? ==> && r.user.Some?
                             && SameExceptImage(r.user.value, s.user.value)
                             && r.user.value.profileImage == Some(uri)
    ensures r.isAuthenticated == s.isAuthenticated
    ensures Consistent(s) ==> Consistent(r)
  {
    match s.user
    case None => s
    case Some(u) => s.(user := Some(u.(profileImage := Some(uri))))
  }

  /** The reducer accepts a `null` login payload, and the result breaks the session
      invariant: the invariant rests on callers passing a user. */
  lemma NullLoginBreaksConsistency(s: Session)
    ensures !Consistent(LoginSuccess(s, None))
  {
  }

  /** Logging out twice is logging out once. */
  lemma LogoutIdempotent(s: Session)
    ensures Logout(Logout(s)) == Logout(s)
  {
  }

  /** Of two image updates, the later one wins. */
  lemma LastImageWins(s: Session, first: string, second: string)
    ensures UpdateProfileImage(UpdateProfileImage(s, first), second) == UpdateProfileImage(s, second)
  {
  }
}
