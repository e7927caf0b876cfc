# UoM Course Finder — a Dafny model of its state core

The UoM Course Finder is a React Native app for finding courses. Users sign in,
search a mock course catalogue, keep a list of favourite courses and switch between
light and dark themes. This project models the parts of the app that have stateable
behaviour, as immutable datatypes and pure functions:

- the **favourites reducer**: an insertion-ordered list of course records kept unique
  by `key`, with add (a no-op when the key is present), remove-by-key and clear;
- the **auth reducer**: the session `{user, isAuthenticated}` with login, logout and
  the profile-image update;
- the **root store**: the two slices side by side, one action dispatched to the
  slice that owns it, and the states reachable from the initial one;
- the **theme provider**: the dark-mode flag, its load from and write to the
  key-value store under `"theme"`, the palette chosen from the flag, and the
  `useTheme` guard;
- the **mock catalogue**: `generateMockCourses` (query lower-casing, the
  priority-ordered substring match over two fixed tables, `slice(0, count)`), the
  record mapping of `fetchCourses`, and `getCoverImageUrl`;
- the two **screens** that combine reducers: the favourite toggle of the details
  screen, and the confirmed logout, profile-photo guard and progress bar of the
  profile screen.

Files: `wrappers.dfy` (Option, Result), `seqs.dfy` (filter, slice, the subsequence
relation), `text.dfy` (ASCII case mapping, `includes`, decimal rendering),
`course_api.dfy`, `favourites_slice.dfy`, `auth_slice.dfy`, `store.dfy`,
`theme_context.dfy`, `details_screen.dfy`, `profile_screen.dfy`.

Foreign effects are inputs. A key-value read is a `ReadOutcome`, a write is a
`WriteOutcome` and storage is a `map<string, string>`. Each permission request or
image-picker run is an outcome value. The three `Math.random()` draws and the
`Date.now()` reading behind each generated course form a `Draw`, supplied per
position by a function `env: nat -> Draw`. Because of that, the key-uniqueness
result holds whatever the clock returns, even if it changes between courses.

Where the code's behaviour is easy to misread, the model follows the code:

- The session invariant (authenticated exactly when a user is present) holds only if
  `loginSuccess` gets a non-null payload. The reducer does not check this, and
  `AuthSlice.NullLoginBreaksConsistency` shows the state a `null` payload produces.
- `loadTheme` does not just "switch to dark when 'dark' is stored". Any other stored
  string sets the flag to false, even if the flag was already true. Only a missing
  value or a failed read leaves the flag alone.
- A course's `rating` is a string produced by `toFixed(1)`, not a number. The model
  keeps the unrounded value `4 + r * 1` (see Left out).
- `removeFavourite` removes every entry with the key, not just one. On a list with
  unique keys these are the same, as `FavouritesSlice.RemoveDeletesOneEntry` states.

## Model

| member | source | states |
|---|---|---|
| FavouritesSlice.InitialState | src/redux/favouritesSlice.js:3-5 | the favourites list starts empty (so its keys are trivially unique) |
| FavouritesSlice.Find | src/redux/favouritesSlice.js:12 | `find` by key yields nothing exactly when no entry has the key, and otherwise the first entry of the list carrying that key |
| FavouritesSlice.AddFavourite | src/redux/favouritesSlice.js:11-16 | with the key present the state is unchanged; with it absent the course is appended at the end and the length grows by one; afterwards the key is present; unique keys stay unique |
| FavouritesSlice.RemoveFavourite | src/redux/favouritesSlice.js:17-19 | no entry with the key remains; the result is an order-preserving subsequence of the old list containing every entry with another key, and exactly as long as the number of such entries (so repeated entries all survive); removing an absent key is a no-op; unique keys stay unique |
| FavouritesSlice.ClearFavourites | src/redux/favouritesSlice.js:20-22 | from any state the list is empty and contains no key |
| FavouritesSlice.AddIdempotent | src/redux/favouritesSlice.js:12-15 | adding the same course twice equals adding it once |
| FavouritesSlice.RemoveIdempotent | src/redux/favouritesSlice.js:18 | removing a key twice equals removing it once |
| FavouritesSlice.RemoveDeletesOneEntry | src/redux/favouritesSlice.js:17-19 | on a list with unique keys, removing the key of entry i yields the list with exactly entry i deleted |
| FavouritesSlice.AddThenRemoveRestores | src/redux/favouritesSlice.js:11-19 | adding a course with a fresh key and then removing that key restores the original list exactly |
| AuthSlice.InitialState | src/redux/authSlice.js:3-6 | the initial session has no user and is not authenticated, so it satisfies the session invariant |
| AuthSlice.LoginSuccess | src/redux/authSlice.js:12-15 | the user becomes exactly the payload and the session is authenticated; with a non-null payload the invariant holds afterwards |
| AuthSlice.NullLoginBreaksConsistency | src/redux/authSlice.js:12-15 | a `null` login payload yields an authenticated session without a user: the invariant depends on callers |
| AuthSlice.Logout | src/redux/authSlice.js:16-19 | from any state the user is gone, the session is not authenticated and the invariant holds |
| AuthSlice.LogoutIdempotent | src/redux/authSlice.js:16-19 | logging out twice equals logging out once |
| AuthSlice.UpdateProfileImage | src/redux/authSlice.js:20-24 | without a user nothing changes; with one, only `profileImage` changes (to the given uri) and every other user field and `isAuthenticated` are kept; the invariant is preserved |
| AuthSlice.LastImageWins | src/redux/authSlice.js:20-24 | of two consecutive image updates the later one alone determines the state |
| Store.Dispatch | src/screens/ProfileScreen.js:20-22 | each action is handled by the reducer of the slice that owns it (login, logout and image update by the auth reducer, add, remove and clear by the favourites reducer) and leaves the other slice unchanged; a well-formed action preserves both slices' invariants |
| Store.ReachableStatesKeepInvariant | src/redux/authSlice.js:3-24 | every state reachable from the initial one by actions whose logins carry a user has a consistent session and a favourites list with unique keys (the latter from src/redux/favouritesSlice.js:3-22) |
| ThemeContext.InitialState | src/context/ThemeContext.js:15 | the provider starts in light mode |
| ThemeContext.Encode | src/context/ThemeContext.js:36 | the stored form of the flag is one of 'dark' and 'light' |
| ThemeContext.ReadStored | src/context/ThemeContext.js:23 | reading "theme" yields the stored string exactly when the key is present, and `null` otherwise |
| ThemeContext.LoadTheme | src/context/ThemeContext.js:21-30 | stored 'dark' gives dark mode, any other stored string gives light mode, and an absent value or a failed read leaves the state unchanged without an error |
| ThemeContext.ToggleTheme | src/context/ThemeContext.js:32-40 | the flag is negated; a successful write stores 'dark' iff the new flag is true, else 'light'; a failed write leaves storage untouched and the flag still flipped; no other storage key changes |
| ThemeContext.EncodeRoundTrip | src/context/ThemeContext.js:23-36 | loading an encoded flag yields that flag, from any state |
| ThemeContext.ToggleTwiceRestores | src/context/ThemeContext.js:32-40 | two toggles return to the original flag, whatever the write outcomes |
| ThemeContext.ToggleThenLoadAgrees | src/context/ThemeContext.js:21-40 | loading the storage a successful toggle left reproduces the toggled in-memory flag |
| ThemeContext.ThemeOf | src/context/ThemeContext.js:42-83 | `theme.dark` equals the flag, and the palette is the dark one iff the flag is set and the light one iff it is not |
| ThemeContext.ProvidedValue | src/context/ThemeContext.js:85-88 | the provided value carries the provider's own flag and the palette chosen from it, so `isDarkMode` and `theme.dark` always agree |
| ThemeContext.UseTheme | src/context/ThemeContext.js:6-12 | outside a provider the result is the error 'useTheme must be used within ThemeProvider', never a value; inside, it is exactly the provided value |
| ThemeContext.UseThemeFollowsToggle | src/context/ThemeContext.js:6-12 | inside the provider `useTheme` yields the provider's flag and its palette, and after a toggle it yields the other palette |
| Text.ToLower | src/utils/courseApi.js:38 | lower-casing keeps the length and maps each character through the ASCII lower-case mapping |
| Text.Includes | src/utils/courseApi.js:41-46 | `includes` is true exactly when the substring occurs at some position |
| Text.NatToString | src/utils/courseApi.js:61 | the rendering of a number is a non-empty string of decimal digits, with a leading '0' only for zero itself |
| Text.NatToStringRoundTrip | src/utils/courseApi.js:61 | reading back the decimal rendering of n gives n |
| Seqs.Filter | src/redux/favouritesSlice.js:18 | `filter` keeps, in order, exactly the elements satisfying the predicate: all kept elements pass, every passing element is kept, the result is a subsequence, and its length is the number of passing positions |
| Seqs.SliceEnd | src/utils/courseApi.js:49 | `slice(0, end)` stops at `end` when it lies within the length, counts back from the length when negative, and is clamped to the length above and to 0 below |
| Seqs.SliceTo | src/utils/courseApi.js:49 | `slice(0, count)` is a prefix no longer than a non-negative count |
| CourseApi.SelectCourses | src/utils/courseApi.js:38-47 | the selection is an order-preserving subsequence of the branch's table, every selected template passes the branch's filter, and every passing template is selected |
| CourseApi.GenerateMockCourses | src/utils/courseApi.js:5-50 | the result is the prefix of the selection cut where `slice(0, count)` stops (so at most `count` entries), an order-preserving subsequence of the branch's table, and passes the branch's filter |
| CourseApi.SelectionIgnoresCase | src/utils/courseApi.js:38 | queries with the same lower-cased form select the same courses |
| CourseApi.UpperCaseQuerySelectsSame | src/utils/courseApi.js:38 | ASCII upper-casing a query does not change the selection |
| CourseApi.BranchPriority | src/utils/courseApi.js:41-47 | each branch is taken exactly when one of its words occurs and no earlier branch's word does: business/management first, then marketing, then data, and the full computer-science list exactly when none of the four words occurs |
| CourseApi.DefaultCountKeepsSelection | src/utils/courseApi.js:49-57 | with the count of 20 used by `fetchCourses`, slicing drops nothing |
| CourseApi.SelectionContents | src/utils/courseApi.js:39-47 | a fetched selection contains exactly the templates of the branch's table that pass its filter (for the data branch: computer-science entries whose category or title contains "Data") |
| CourseApi.Thumbnail | src/utils/courseApi.js:70 | the thumbnail is the template's image when that is non-empty and the fallback URL when it is empty, so it is never empty |
| CourseApi.MapCourses | src/utils/courseApi.js:60-73 | one record per template, in order, listing that template (title, instructor, category, level, duration, image or fallback, '2024'), keyed `course-<index>-<timestamp>`, described from its lower-cased title, with students `floor(1000 + r * 50000)`, price `floor(29 + r * 170)` and rating `4 + r * 1` from that position's draws (in [1000, 50999], [29, 198] and [4, 5) for in-range draws), and no two keys equal |
| CourseApi.FetchCourses | src/utils/courseApi.js:52-82 | success with one record per selected template, in order, carrying its title, instructor, category, level and duration, its image or else the fallback URL, and '2024'; keyed `course-<index>-<timestamp>` and pairwise distinct; every thumbnail non-empty; in-range draws give students in [1000, 50999], price in [29, 198] and an unrounded rating `4 + r` in [4, 5) |
| CourseApi.CourseKeyInjective | src/utils/courseApi.js:61 | equal keys imply equal index and equal timestamp |
| CourseApi.DistinctPositionsDistinctKeys | src/utils/courseApi.js:61 | records at different positions have different keys, whatever the timestamps |
| CourseApi.KeysDistinctAcrossPositions | src/utils/courseApi.js:60-61 | the keys generated for positions 0 to n - 1 are pairwise distinct, whatever the timestamps |
| CourseApi.DrawRanges | src/utils/courseApi.js:68-69 | a draw in [0, 1) gives students in [1000, 50999] and price in [29, 198] |
| CourseApi.GetCoverImageUrl | src/utils/courseApi.js:84-86 | the cover URL is the thumbnail when non-empty and null exactly when it is empty |
| CourseApi.FetchedCoursesHaveCover | src/utils/courseApi.js:70-86 | every fetched course has a cover URL, namely its thumbnail, since the fallback keeps thumbnails non-empty |
| DetailsScreen.IsFavourite | src/screens/DetailsScreen.js:23 | the screen's `some` test agrees with the `find` lookup the add reducer uses |
| DetailsScreen.ToggleAction | src/screens/DetailsScreen.js:26-34 | a favourite dispatches `removeFavourite(course.key)`, any other course `addFavourite(course)` |
| DetailsScreen.HandleToggleFavourite | src/screens/DetailsScreen.js:26-34 | the favourite status flips; a new favourite is appended; a present one is removed exactly as `removeFavourite(course.key)` removes it, leaving no entry with the key; the session is untouched; the invariants are preserved |
| DetailsScreen.ToggleTwiceFromAbsentRestores | src/screens/DetailsScreen.js:23-34 | toggling a non-favourite twice restores the store exactly |
| DetailsScreen.ToggleTwiceFromPresentMovesToEnd | src/screens/DetailsScreen.js:23-34 | toggling favourite entry i twice keeps it a favourite but moves it: the list becomes the old list without entry i, followed by the course |
| ProfileScreen.HandleLogout | src/screens/ProfileScreen.js:86-102 | cancelling changes nothing; confirming leaves no user, an unauthenticated session, an empty favourites list and both invariants |
| ProfileScreen.LogoutSequence | src/screens/ProfileScreen.js:95-98 | after the first dispatch the session is closed and the favourites are untouched; the second dispatch completes the logout |
| ProfileScreen.SessionScenario | src/screens/ProfileScreen.js:95-98 | login, adding the same key twice and a confirmed logout give one stored favourite, then the initial state again |
| ProfileScreen.HandlePhoto | src/screens/ProfileScreen.js:26-71 | the profile image is updated to the first asset's uri only when permission is granted and the picker returns uncancelled with an asset; any other outcome leaves the store unchanged; favourites are never touched |
| ProfileScreen.DeniedPermissionChangesNothing | src/screens/ProfileScreen.js:30-33 | a denied permission returns before any dispatch |
| ProfileScreen.ProgressPercent | src/screens/ProfileScreen.js:181 | the fill never exceeds 100 and equals 10 × count for up to 10 favourites |
| ProfileScreen.ProgressMonotone | src/screens/ProfileScreen.js:181 | more favourites never give a narrower fill |

## Left out

- Rendering, styles, navigation, animation, the loading screen and `App.js`: they
  are UI composition and have no state to model.
- Rehydration through redux-persist and `PersistGate`. `App.js` imports the store and
  persistence configuration from `src/redux/store`, but that file's source is not
  available here. `Store.RootState` is the shape the screens select from.
- The network login (`src/utils/authApi.js`) and the login/registration forms. A
  successful login enters the model as the `LoginSuccess` payload.
- `AsyncStorage`, the image picker and `Alert`: their results are inputs. The alert
  texts and the console logging of swallowed errors are not modelled.
- The 500 ms delay in `fetchCourses`, the order in which concurrent searches
  resolve, and the asynchronous timing of `loadTheme` against an early toggle. The
  model applies each operation atomically.
- Stale render-time values: `isFavourite` and `isDarkMode` are read when the
  screen rendered. The model reads them from the state the operation applies to.
- The default arguments of `generateMockCourses`/`fetchCourses`. A query is always
  given; the default count of 20 that `fetchCourses` passes appears as `DefaultCount`.
- The `catch` branch of `fetchCourses`: nothing in its `try` can throw for a string
  query, so `CourseApi.FetchCourses` always succeeds.
- Text.ToLower: maps only ASCII letters. `toLowerCase` also maps non-ASCII letters,
  and the model leaves those unchanged.
- CourseApi.UpperCaseQuerySelectsSame: holds for ASCII upper-casing only. JavaScript's
  `toUpperCase` also maps 'ı' (U+0131) and 'ſ' (U+017F) to 'I' and 'S', so
  `"busıness"` selects the computer-science table while its upper-cased form selects
  the business branch.
- CourseApi.FetchCourses: keeps the rating as the unrounded number `4 + r`, not the
  `toFixed(1)` string. Its rating range [4, 5) is about that unrounded value: the
  string would read "5.0" for r >= 0.95. It also uses exact reals for
  `Math.random()` and `Math.floor` instead of floating point.
- CourseApi.MapCourses: the same unrounded rating as `FetchCourses`.
- CourseApi.SelectCourses: the contents of the two tables are included, but no lemma
  computes the result for a particular query.
- The `students / 1000` and rating displays on the screens: these are formatting only.
