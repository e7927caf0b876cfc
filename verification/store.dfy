/** The root state the screens select from (`state.auth`, `state.favourites`) and the
    dispatch of one action to the reducer that owns it. Running a sequence of actions
    from the initial state gives the states the application can reach. */
module Store {
  import opened Wrappers
  import opened CourseApi
  import AuthSlice
  import FavouritesSlice

  datatype RootState = RootState(auth: AuthSlice.Session, favourites: FavouritesSlice.FavouritesState)

  /** The six action creators the two slices export. */
  datatype Action =
    | LoginSuccess(payload: Option<AuthSlice.User>)
    | Logout
    | UpdateProfileImage(uri: string)
    | AddFavourite(course: Course)
    | RemoveFavourite(key: string)
    | ClearFavourites

  predicate IsAuthAction(a: Action)
  {
    a.LoginSuccess? || a.Logout? || a.UpdateProfileImage?
  }

  /** The invariants of both slices. */
  predicate Invariant(s: RootState)
  {
    AuthSlice.Consistent(s.auth) && KeysUnique(s.favourites.favourites)
  }

  /** The one assumption the invariant needs: logins carry a user. */
  predicate WellFormed(a: Action)
  {
    a.LoginSuccess? ==> a.payload.Some?
  }

  function InitialState(): (s: RootState)
    ensures Invariant(s)
    ensures s.auth.user.None? && |s.favourites.favourites| == 0
  {
    RootState(AuthSlice.InitialState(), FavouritesSlice.InitialState())
  }

  /** `dispatch(action)`: only the slice owning the action changes. */
  function Dispatch(s: RootState, a: Action): (r: RootState)
    ensures IsAuthAction(a) ==> r.favourites == s.favourites
    ensures !IsAuthAction(a) ==> r.auth == s.auth
    ensures a.LoginSuccess? ==> r.auth == AuthSlice.LoginSuccess(s.auth, a.payload)
    ensures a.Logout? ==> r.auth == AuthSlice.Logout(s.auth)
    ensures a.UpdateProfileImage? ==> r.auth == AuthSlice.UpdateProfileImage(s.auth, a.uri)
    ensures a.AddFavourite? ==> r.favourites == FavouritesSlice.AddFavourite(s.favourites, a.course)
    ensures a.RemoveFavourite? ==> r.favourites == FavouritesSlice.RemoveFavourite(s.favourites, a.key)
    ensures a.ClearFavourites? ==> r.favourites == FavouritesSlice.ClearFavourites(s.favourites)
    ensures Invariant(s) && WellFormed(a) ==> Invariant(r)
  {
    match a
    case LoginSuccess(payload) => s.(auth := AuthSlice.LoginSuccess(s.auth, payload))
    case Logout => s.(auth := AuthSlice.Logout(s.auth))
    case UpdateProfileImage(uri) => s.(auth := AuthSlice.UpdateProfileImage(s.auth, uri))
    case AddFavourite(course) => s.(favourites := FavouritesSlice.AddFavourite(s.favourites, course))
    case RemoveFavourite(key) => s.(favourites := FavouritesSlice.RemoveFavourite(s.favourites, key))
    case ClearFavourites => s.(favourites := FavouritesSlice.ClearFavourites(s.favourites))
  }

  /** Dispatching `actions` in order. */
  function Run(s: RootState, actions: seq<Action>): (r: RootState)
    ensures Invariant(s) && (forall i :: 0 <= i < |actions| ==> WellFormed(actions[i]))
            ==> Invariant(r)
    decreases |actions|
  {
    if |actions| == 0 then s
    else Run(Dispatch(s, actions[0]), actions[1..])
  }

  /** Every reachable session is authenticated exactly when it holds a user, and every
      reachable favourites list has unique keys, provided no login carries `null`. */
  lemma ReachableStatesKeepInvariant(actions: seq<Action>)
    requires forall i :: 0 <= i < |actions| ==> WellFormed(actions[i])
    ensures AuthSlice.Consistent(Run(InitialState(), actions).auth)
    ensures KeysUnique(Run(InitialState(), actions).favourites.favourites)
  {
  }
}
