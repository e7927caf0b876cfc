/** The favourites reducer: an insertion-ordered list of course records in which no two
    records share a `key`, with add (a no-op when the key is already present),
    remove-by-key and clear. Each reducer is a pure function from the old state to the
    new one. */
module FavouritesSlice {
  import opened Wrappers
  import opened Seqs
  import opened CourseApi

  datatype FavouritesState = FavouritesState(favourites: seq<Course>)

  /** Some entry of `fs` carries `key`. */
  predicate HasKey(fs: seq<Course>, key: string)
  {
    exists i :: 0 <= i < |fs| && fs[i].key == key
  }

  /** The slice's `initialState`. */
  function InitialState(): (s: FavouritesState)
    ensures |s.favourites| == 0
    ensures KeysUnique(s.favourites)
  {
    FavouritesState([])
  }

  /** `favourites.find(item => item.key === key)`: the first entry with that key, if any. */
  function Find(fs: seq<Course>, key: string): (r: Option<Course>)
    ensures r.None? <==> !HasKey(fs, key)
    ensures r.Some? ==> r.value.key == key && r.value in fs
    ensures r.Some? ==> exists i :: FirstWithKey(fs, key, i) && fs[i] == r.value
    decreases |fs|
  {
    if |fs| == 0 then None
    else if fs[0].key == key then
      assert FirstWithKey(fs, key, 0);
      Some(fs[0])
    else
      assert forall i :: 1 <= i < |fs| ==> fs[i] == fs[1..][i - 1];
      var r := Find(fs[1..], key);
      FirstWithKeyShift(fs, key);
      r
  }

  /** Entry `i` is the first entry of `fs` carrying `key`. */
  ghost predicate FirstWithKey(fs: seq<Course>, key: string, i: int)
  {
    0 <= i < |fs| && fs[i].key == key && forall j :: 0 <= j < i ==> fs[j].key != key
  }

  /** Past a first entry with another key, the first match moves back by one. */
  lemma FirstWithKeyShift(fs: seq<Course>, key: string)
    requires |fs| > 0 && fs[0].key != key
    ensures forall i :: FirstWithKey(fs[1..], key, i) ==> FirstWithKey(fs, key, i + 1) && fs[i + 1] == fs[1..][i]
  {
    forall i | FirstWithKey(fs[1..], key, i)
      ensures FirstWithKey(fs, key, i + 1) && fs[i + 1] == fs[1..][i]
    {
      forall j | 0 <= j < i + 1
        ensures fs[j].key != key
      {
        if j > 0 {
          assert fs[j] == fs[1..][j - 1];
        }
      }
    }
  }

  /** `addFavourite(course)`: appends the course unless an entry with its key exists. */
  function AddFavourite(s: FavouritesState, course: Course): (r: FavouritesState)
    ensures HasKey(s.favourites, course.key) ==> r == s
    ensures !HasKey(s.favourites, course.key) ==> r.favourites == s.favourites + [course]
    ensures !HasKey(s.favourites, course.key) ==> |r.favourites| == |s.favourites| + 1
    ensures HasKey(r.favourites, course.key)
    ensures KeysUnique(s.favourites) ==> KeysUnique(r.favourites)
  {
    if Find(s.favourites, course.key).Some? then
      s
    else
      var fs := s.favourites + [course];
      assert fs[|s.favourites|].key == course.key;
      FavouritesState(fs)
  }

  /** `removeFavourite(key)`: keeps, in order, every entry whose key differs. */
  function RemoveFavourite(s: FavouritesState, key: string): (r: FavouritesState)
    ensures !HasKey(r.favourites, key)
    ensures IsSubsequence(r.favourites, s.favourites)
    ensures |r.favourites| == CountWhere(s.favourites, (c: Course) => c.key != key)
    ensures forall i :: 0 <= i < |s.favourites| && s.favourites[i].key != key
                        ==> s.favourites[i] in r.favourites
    ensures !HasKey(s.favourites, key) ==> r == s
    ensures KeysUnique(s.favourites) ==> KeysUnique(r.favourites)
  {
    var kept := Filter(s.favourites, (c: Course) => c.key != key);
    FilterWithoutKey(s.favourites, key);
    FavouritesState(kept)
  }

  lemma FilterWithoutKey(fs: seq<Course>, key: string)
    ensures !HasKey(fs, key) ==> Filter(fs, (c: Course) => c.key != key) == fs
    ensures KeysUnique(fs) ==> KeysUnique(Filter(fs, (c: Course) => c.key != key))
  {
    var p := (c: Course) => c.key != key;
    if !HasKey(fs, key) {
      FilterAllPass(fs, p);
    }
    if KeysUnique(fs) {
      SubsequenceKeepsKeysUnique(Filter(fs, p), fs);
    }
  }

  /** `clearFavourites()`: empties the list from any state. */
  function ClearFavourites(s: FavouritesState): (r: FavouritesState)
    ensures |r.favourites| == 0
    ensures forall key :: !HasKey(r.favourites, key)
    ensures KeysUnique(r.favourites)
  {
    InitialState()
  }

  /** Deleting entries cannot create a duplicate key. */
  lemma {:induction false} SubsequenceKeepsKeysUnique(a: seq<Course>, b: seq<Course>)
    requires IsSubsequence(a, b)
    requires KeysUnique(b)
    ensures KeysUnique(a)
    decreases |b|
  {
    if |a| == 0 {
    } else if a[0] == b[0] && IsSubsequence(a[1..], b[1..]) {
      SubsequenceKeepsKeysUnique(a[1..], b[1..]);
      SubsequenceMembers(a[1..], b[1..]);
      forall j | 0 < j < |a|
        ensures a[0].key != a[j].key
      {
        assert a[j] == a[1..][j - 1];
        assert a[j] in a[1..];
        assert a[j] in b[1..];
        var k :| 0 <= k < |b[1..]| && b[1..][k] == a[j];
        assert b[k + 1] == a[j];
      }
    } else {
      SubsequenceKeepsKeysUnique(a, b[1..]);
    }
  }

  /** Adding the same course twice leaves exactly the state of adding it once. */
  lemma AddIdempotent(s: FavouritesState, course: Course)
    ensures AddFavourite(AddFavourite(s, course), course) == AddFavourite(s, course)
  {
  }

  /** Removing a key twice leaves exactly the state of removing it once. */
  lemma RemoveIdempotent(s: FavouritesState, key: string)
    ensures RemoveFavourite(RemoveFavourite(s, key), key) == RemoveFavourite(s, key)
  {
  }

  /** On a list with unique keys, removing the key of entry `i` deletes that one entry
      and nothing else. */
  lemma RemoveDeletesOneEntry(s: FavouritesState, i: nat)
    requires KeysUnique(s.favourites)
    requires i < |s.favourites|
    ensures RemoveFavourite(s, s.favourites[i].key).favourites
            == s.favourites[..i] + s.favourites[i + 1..]
  {
    var fs := s.favourites;
    var key := fs[i].key;
    var p := (c: Course) => c.key != key;
    var before, after := fs[..i], fs[i + 1..];
    assert fs == before + ([fs[i]] + after);
    assert forall j :: 0 <= j < |before| ==> before[j] == fs[j];
    assert forall j :: 0 <= j < |after| ==> after[j] == fs[i + 1 + j];
    FilterDropsOne(before, fs[i], after, p);
  }

  /** Filtering out the one failing element between two passing runs. */
  lemma FilterDropsOne<T>(a: seq<T>, x: T, b: seq<T>, p: T -> bool)
    requires forall j :: 0 <= j < |a| ==> p(a[j])
    requires forall j :: 0 <= j < |b| ==> p(b[j])
    requires !p(x)
    ensures Filter(a + ([x] + b), p) == a + b
  {
    FilterAppend(a, [x] + b, p);
    FilterAppend([x], b, p);
    FilterAllPass(a, p);
    FilterAllPass(b, p);
    assert Filter([x], p) == [];
  }

  /** Adding a course with a fresh key and then removing that key restores the list. */
  lemma AddThenRemoveRestores(s: FavouritesState, course: Course)
    requires !HasKey(s.favourites, course.key)
    ensures RemoveFavourite(AddFavourite(s, course), course.key) == s
  {
    var p := (c: Course) => c.key != course.key;
    FilterAppend(s.favourites, [course], p);
    FilterAllPass(s.favourites, p);
    assert Filter([course], p) == [];
  }
}
