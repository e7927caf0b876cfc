/** The course details screen: whether the shown course is a favourite, and the heart
    button that adds or removes it. */
module DetailsScreen {
  import opened CourseApi
  import opened Store
  import FavouritesSlice

  /** `favourites.some(item => item.key === course.key)`; it agrees with the lookup
      the add reducer performs. */
  function IsFavourite(favourites: seq<Course>, course: Course): (b: bool)
    ensures b <==> FavouritesSlice.Find(favourites, course.key).Some?
  {
    FavouritesSlice.HasKey(favourites, course.key)
  }

  /** The action `handleToggleFavourite` dispatches. */
  function ToggleAction(favourites: seq<Course>, course: Course): (a: Action)
    ensures IsFavourite(favourites, course) ==> a == RemoveFavourite(course.key)
    ensures !IsFavourite(favourites, course) ==> a == AddFavourite(course)
  {
    if IsFavourite(favourites, course) then RemoveFavourite(course.key) else AddFavourite(course)
  }

  /** `handleToggleFavourite()`: the course's favourite status flips, nothing else in
      the store changes, and the invariants are kept. */
  function HandleToggleFavourite(s: RootState, course: Course): (r: RootState)
    ensures r.auth == s.auth
    ensures IsFavourite(r.favourites.favourites, course) <==> !IsFavourite(s.favourites.favourites, course)
    ensures !IsFavourite(s.favourites.favourites, course)
            ==> r.favourites.favourites == s.favourites.favourites + [course]
    ensures IsFavourite(s.favourites.favourites, course)
            ==> forall i :: 0 <= i < |r.favourites.favourites| ==> r.favourites.favourites[i].key != course.key
    ensures IsFavourite(s.favourites.favourites, course)
            ==> r.favourites == FavouritesSlice.RemoveFavourite(s.favourites, course.key)
    ensures Invariant(s) ==> Invariant(r)
  {
    Dispatch(s, ToggleAction(s.favourites.favourites, course))
  }

  /** Toggling a non-favourite twice restores the list exactly. */
  lemma ToggleTwiceFromAbsentRestores(s: RootState, course: Course)
    requires !IsFavourite(s.favourites.favourites, course)
    ensures HandleToggleFavourite(HandleToggleFavourite(s, course), course) == s
  {
    FavouritesSlice.AddThenRemoveRestores(s.favourites, course);
  }

  /** Toggling a favourite twice keeps it a favourite but moves it to the end: entry `i`
      is taken out and `course` appended. */
  lemma ToggleTwiceFromPresentMovesToEnd(s: RootState, course: Course, i: nat)
    requires KeysUnique(s.favourites.favourites)
    requires i < |s.favourites.favourites| && s.favourites.favourites[i].key == course.key
    ensures var fs := s.favourites.favourites;
            HandleToggleFavourite(HandleToggleFavourite(s, course), course).favourites.favourites
            == fs[..i] + fs[i + 1..] + [course]
  {
    FavouritesSlice.RemoveDeletesOneEntry(s.favourites, i);
  }
}
