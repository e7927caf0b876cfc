/** The profile screen's state changes: the confirmed logout, the profile photo taken
    from the library or the camera, and the width of the favourites progress bar. */
module ProfileScreen {
  import opened Wrappers
  import opened CourseApi
  import opened Store
  import AuthSlice

  /** The two buttons of the logout confirmation. */
  datatype LogoutChoice = Cancel | ConfirmLogout

  /** `handleLogout()`: on confirmation, dispatch `logout()` and then `clearFavourites()`. */
  function HandleLogout(s: RootState, choice: LogoutChoice): (r: RootState)
    ensures choice.Cancel? ==> r == s
    ensures choice.ConfirmLogout? ==> && r.auth.user.None?
                                      && !r.auth.isAuthenticated
                                      && |r.favourites.favourites| == 0
                                      && Invariant(r)
  {
    match choice
    case Cancel => s
    case ConfirmLogout => Run(s, [Logout, ClearFavourites])
  }

  /** Between the two dispatches the session is already closed and the favourites are
      still those of the departing user; the second dispatch empties them. */
  lemma LogoutSequence(s: RootState)
    ensures var mid := Dispatch(s, Logout);
            && mid.auth == AuthSlice.Logout(s.auth)
            && mid.favourites == s.favourites
            && Dispatch(mid, ClearFavourites) == HandleLogout(s, ConfirmLogout)
  {
  }

  /** A whole session from the initial state: a login, the same course key added twice
      (the second record is ignored), then a confirmed logout. */
  lemma SessionScenario(u: AuthSlice.User, c: Course, c2: Course)
    requires c2.key == c.key
    ensures var s1 := Dispatch(InitialState(), LoginSuccess(Some(u)));
            var s2 := Dispatch(Dispatch(s1, AddFavourite(c)), AddFavourite(c2));
            && s1.auth.user == Some(u) && s1.auth.isAuthenticated
            && s2.favourites.favourites == [c]
            && HandleLogout(s2, ConfirmLogout) == InitialState()
  {
  }

  /** What the permission request resolved to, or that it threw. */
  datatype PermissionOutcome = PermissionResult(granted: bool) | PermissionThrew

  datatype Asset = Asset(uri: string)

  /** What the picker resolved to (`canceled`, `assets`), or that it threw. */
  datatype LaunchOutcome = Returned(canceled: bool, assets: seq<Asset>) | LaunchThrew

  /** The guard of `pickImage`/`takePhoto`: the photo is stored only if permission was
      not refused and the picker returned, was not cancelled and has a first asset. */
  predicate Accepted(permission: PermissionOutcome, launch: LaunchOutcome)
  {
    && permission.PermissionResult?
    && permission.granted
    && launch.Returned?
    && !launch.canceled
    && |launch.assets| > 0
  }

  /** `pickImage()` / `takePhoto()`: both handlers apply this same guard (they differ
      only in which permission they ask for and in the alert text). An accepted picture
      dispatches `updateProfileImage(assets[0].uri)`; every other outcome (denied
      permission, cancellation, no asset, a thrown error) leaves the store as it was. */
  function HandlePhoto(s: RootState, permission: PermissionOutcome,
                       launch: LaunchOutcome): (r: RootState)
    ensures r.favourites == s.favourites
    ensures !Accepted(permission, launch) ==> r == s
    ensures Accepted(permission, launch) ==> r.auth == AuthSlice.UpdateProfileImage(s.auth, launch.assets[0].uri)
    ensures Invariant(s) ==> Invariant(r)
  {
    match permission
    case PermissionThrew => s
    case PermissionResult(granted) =>
      if !granted then s
      else
        match launch
        case LaunchThrew => s
        case Returned(canceled, assets) =>
          if !canceled && |assets| > 0 then Dispatch(s, UpdateProfileImage(assets[0].uri))
          else s
  }

  /** A refused permission returns before anything is dispatched. */
  lemma DeniedPermissionChangesNothing(s: RootState, launch: LaunchOutcome)
    ensures HandlePhoto(s, PermissionResult(false), launch) == s
  {
  }

  /** `Math.min(favourites.length * 10, 100)`: the width of the progress fill, in percent. */
  function ProgressPercent(count: nat): (w: nat)
    ensures w <= 100
    ensures count <= 10 ==> w == 10 * count
    ensures count >= 10 ==> w == 100
  {
    if count * 10 < 100 then count * 10 else 100
  }

  /** More favourites never shrink the bar. */
  lemma ProgressMonotone(m: nat, n: nat)
    requires m <= n
    ensures ProgressPercent(m) <= ProgressPercent(n)
  {
  }
}
