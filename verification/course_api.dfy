/** The mock course catalogue: `generateMockCourses` picks templates from two fixed
    tables by matching the lower-cased query, and `fetchCourses` turns each pick into the
    course record the screens display and the favourites store keeps. Random draws and
    the clock are inputs (`Draw`), one per position of the result. */
module CourseApi {
  import opened Wrappers
  import opened Seqs
  import opened Text

  /** One entry of the fixed course tables. */
  datatype Template = Template(
    title: string,
    instructor: string,
    category: string,
    level: string,
    duration: string,
    image: string)

  /** The course record built by `fetchCourses`; `key` identifies it in the favourites. */
  datatype Course = Course(
    key: string,
    title: string,
    instructor: string,
    category: string,
    level: string,
    duration: string,
    rating: real,
    students: int,
    price: int,
    thumbnail: string,
    description: string,
    lastUpdated: string)

  /** The random values and the clock reading consumed while building one course:
      three results of `Math.random()` and one of `Date.now()`. */
  datatype Draw = Draw(rating: real, students: real, price: real, now: nat)

  /** What `Math.random()` promises: every draw lies in [0, 1). */
  predicate DrawInRange(d: Draw)
  {
    && 0.0 <= d.rating < 1.0
    && 0.0 <= d.students < 1.0
    && 0.0 <= d.price < 1.0
  }

  /** The number of courses `fetchCourses` asks for (also the default `count`). */
  const DefaultCount: int := 20

  const FallbackThumbnail: string :=
    "https://images.unsplash.com/photo-1516321318423-f06f85e504b3?w=400&h=300&fit=crop"

  const LastUpdated: string := "2024"

  /** The table under the key 'computer science'. */
  const ComputerScience: seq<Template> := [
      Template("Introduction to Computer Science", "Dr. John Smith", "Programming", "Beginner", "8 weeks",
        "https://images.unsplash.com/photo-1461749280684-dccba630e2f6?w=400&h=300&fit=crop"),
      Template("Data Structures and Algorithms", "Prof. Sarah Johnson", "Computer Science", "Intermediate", "12 weeks",
        "https://images.unsplash.com/photo-1509228468518-180dd4864904?w=400&h=300&fit=crop"),
      Template("Web Development Bootcamp", "Michael Chen", "Web Development", "Beginner", "16 weeks",
        "https://images.unsplash.com/photo-1498050108023-c5249f4df085?w=400&h=300&fit=crop"),
      Template("Machine Learning Fundamentals", "Dr. Emily Williams", "AI & ML", "Advanced", "10 weeks",
        "https://images.unsplash.com/photo-1555949963-aa79dcee981c?w=400&h=300&fit=crop"),
      Template("Mobile App Development", "David Martinez", "Mobile Development", "Intermediate", "14 weeks",
        "https://images.unsplash.com/photo-1512941937669-90a1b58e7e9c?w=400&h=300&fit=crop"),
      Template("Cloud Computing with AWS", "Jennifer Lee", "Cloud Computing", "Intermediate", "8 weeks",
        "https://images.unsplash.com/photo-1451187580459-43490279c0fa?w=400&h=300&fit=crop"),
      Template("Database Design and SQL", "Robert Brown", "Database", "Beginner", "6 weeks",
        "https://images.unsplash.com/photo-1544383835-bda2bc66a55d?w=400&h=300&fit=crop"),
      Template("Cybersecurity Essentials", "Dr. Amanda Taylor", "Security", "Intermediate", "10 weeks",
        "https://images.unsplash.com/photo-1550751827-4bd374c3f58b?w=400&h=300&fit=crop"),
      Template("Python Programming Masterclass", "Kevin Anderson", "Programming", "Beginner", "12 weeks",
        "https://images.unsplash.com/photo-1526379095098-d400fd0bf935?w=400&h=300&fit=crop"),
      Template("Full Stack JavaScript", "Lisa Thompson", "Web Development", "Advanced", "20 weeks",
        "https://images.unsplash.com/photo-1579468118864-1b9ea3c0db4a?w=400&h=300&fit=crop"),
      Template("React Native Development", "Chris Wilson", "Mobile Development", "Intermediate", "10 weeks",
        "https://images.unsplash.com/photo-1551650975-87deedd944c3?w=400&h=300&fit=crop"),
      Template("DevOps Engineering", "Dr. Mark Davis", "DevOps", "Advanced", "12 weeks",
        "https://images.unsplash.com/photo-1618401471353-b98afee0b2eb?w=400&h=300&fit=crop"),
      Template("UI/UX Design Principles", "Sophie Garcia", "Design", "Beginner", "8 weeks",
        "https://images.unsplash.com/photo-1561070791-2526d30994b5?w=400&h=300&fit=crop"),
      Template("Blockchain Development", "Alex Martinez", "Blockchain", "Advanced", "14 weeks",
        "https://images.unsplash.com/photo-1639762681485-074b7f938ba0?w=400&h=300&fit=crop"),
      Template("Game Development with Unity", "James Rodriguez", "Game Development", "Intermediate", "16 weeks",
        "https://images.unsplash.com/photo-1511512578047-dfb367046420?w=400&h=300&fit=crop"),
      Template("Artificial Intelligence Basics", "Dr. Maria Lopez", "AI & ML", "Beginner", "10 weeks",
        "https://images.unsplash.com/photo-1677442136019-21780ecad995?w=400&h=300&fit=crop"),
      Template("Software Testing and QA", "Patricia White", "Quality Assurance", "Intermediate", "6 weeks",
        "https://images.unsplash.com/photo-1516116216624-53e697fedbea?w=400&h=300&fit=crop"),
      Template("Network Security", "Daniel Harris", "Security", "Advanced", "12 weeks",
        "https://images.unsplash.com/photo-1558494949-ef010cbdcc31?w=400&h=300&fit=crop"),
      Template("Java Programming Complete", "Richard Clark", "Programming", "Beginner", "14 weeks",
        "https://images.unsplash.com/photo-1517694712202-14dd9538aa97?w=400&h=300&fit=crop"),
      Template("Docker and Kubernetes", "Susan Lewis", "DevOps", "Advanced", "8 weeks",
        "https://images.unsplash.com/photo-1605745341112-85968b19335b?w=400&h=300&fit=crop")
    ]

  /** The table under the key 'default'. */
  const DefaultTopics: seq<Template> := [
      Template("Introduction to Programming", "Dr. John Smith", "Programming", "Beginner", "8 weeks",
        "https://images.unsplash.com/photo-1515879218367-8466d910aaa4?w=400&h=300&fit=crop"),
      Template("Business Analytics", "Prof. Sarah Johnson", "Business", "Intermediate", "10 weeks",
        "https://images.unsplash.com/photo-1460925895917-afdab827c52f?w=400&h=300&fit=crop"),
      Template("Digital Marketing Strategy", "Michael Chen", "Marketing", "Beginner", "6 weeks",
        "https://images.unsplash.com/photo-1432888622747-4eb9a8f2c293?w=400&h=300&fit=crop"),
      Template("Project Management Professional", "Dr. Emily Williams", "Management", "Intermediate", "12 weeks",
        "https://images.unsplash.com/photo-1454165804606-c3d57bc86b40?w=400&h=300&fit=crop"),
      Template("Data Science Fundamentals", "David Martinez", "Data Science", "Intermediate", "14 weeks",
        "https://images.unsplash.com/photo-1551288049-bebda4e38f71?w=400&h=300&fit=crop")
    ]

  /** The four outcomes of the query match, in the order they are tried. */
  datatype Branch = Business | Marketing | DataScience | Everything

  /** Which branch a lower-cased query takes: business/management first, then
      marketing, then data, and otherwise the whole computer-science table. */
  function BranchOf(searchQuery: string): Branch
  {
    if Includes(searchQuery, "business") || Includes(searchQuery, "management") then Business
    else if Includes(searchQuery, "marketing") then Marketing
    else if Includes(searchQuery, "data") then DataScience
    else Everything
  }

  /** The table a branch draws from. */
  function SourceTable(b: Branch): seq<Template>
  {
    match b
    case Business => DefaultTopics
    case Marketing => DefaultTopics
    case DataScience => ComputerScience
    case Everything => ComputerScience
  }

  /** The filter a branch applies to its table; the substrings are case-sensitive. */
  predicate Keeps(b: Branch, t: Template)
  {
    match b
    case Business => Includes(t.category, "Business") || Includes(t.category, "Management")
    case Marketing => Includes(t.category, "Marketing")
    case DataScience => Includes(t.category, "Data") || Includes(t.title, "Data")
    case Everything => true
  }

  /** The templates selected for a lower-cased query, before slicing. */
  function SelectCourses(searchQuery: string): (r: seq<Template>)
    ensures IsSubsequence(r, SourceTable(BranchOf(searchQuery)))
    ensures forall i :: 0 <= i < |r| ==> Keeps(BranchOf(searchQuery), r[i])
    ensures forall i :: 0 <= i < |SourceTable(BranchOf(searchQuery))|
                        && Keeps(BranchOf(searchQuery), SourceTable(BranchOf(searchQuery))[i])
                        ==> SourceTable(BranchOf(searchQuery))[i] in r
  {
    var b := BranchOf(searchQuery);
    if b == Everything then
      SubsequenceReflexive(ComputerScience);
      ComputerScience
    else
      Filter(SourceTable(b), t => Keeps(b, t))
  }

  /** `generateMockCourses(query, count)`: the selection for the lower-cased query,
      cut to its first `count` entries with `slice(0, count)`. */
  function GenerateMockCourses(query: string, count: int): (r: seq<Template>)
    ensures 0 <= count ==> |r| <= count
    ensures |r| == SliceEnd(|SelectCourses(ToLower(query))|, count)
    ensures forall i :: 0 <= i < |r| ==> r[i] == SelectCourses(ToLower(query))[i]
    ensures IsSubsequence(r, SourceTable(BranchOf(ToLower(query))))
    ensures forall i :: 0 <= i < |r| ==> Keeps(BranchOf(ToLower(query)), r[i])
  {
    var selected := SelectCourses(ToLower(query));
    PrefixOfSubsequence(selected, SourceTable(BranchOf(ToLower(query))), SliceEnd(|selected|, count));
    SliceTo(selected, count)
  }

  /** The selection reads the query only through its lower-cased form. */
  lemma SelectionIgnoresCase(a: string, b: string, count: int)
    requires ToLower(a) == ToLower(b)
    ensures GenerateMockCourses(a, count) == GenerateMockCourses(b, count)
  {
  }

  /** ASCII upper-casing a query does not change what it selects (`ToUpper` maps only
      ASCII letters). */
  lemma UpperCaseQuerySelectsSame(query: string, count: int)
    ensures GenerateMockCourses(ToUpper(query), count) == GenerateMockCourses(query, count)
  {
    LowerOfUpper(query);
  }

  /** Branch priority: business/management is tried first, then marketing, then data;
      each branch is taken exactly when its words occur and no earlier branch's do. */
  lemma BranchPriority(searchQuery: string)
    ensures BranchOf(searchQuery) == Business
            <==> (Includes(searchQuery, "business") || Includes(searchQuery, "management"))
    ensures BranchOf(searchQuery) == Marketing
            <==> (&& !Includes(searchQuery, "business") && !Includes(searchQuery, "management")
                  && Includes(searchQuery, "marketing"))
    ensures BranchOf(searchQuery) == DataScience
            <==> (&& !Includes(searchQuery, "business") && !Includes(searchQuery, "management")
                  && !Includes(searchQuery, "marketing") && Includes(searchQuery, "data"))
    ensures BranchOf(searchQuery) == Everything
            <==> (&& !Includes(searchQuery, "business") && !Includes(searchQuery, "management")
                  && !Includes(searchQuery, "marketing") && !Includes(searchQuery, "data"))
  {
  }

  /** With the count `fetchCourses` uses, slicing never drops a selected template,
      because no table holds more than twenty entries. */
  lemma DefaultCountKeepsSelection(query: string)
    ensures GenerateMockCourses(query, DefaultCount) == SelectCourses(ToLower(query))
  {
  }

  /** What a `fetchCourses` query selects: exactly the templates of the branch's table
      that pass the branch's filter. For the data branch these are the computer-science
      templates whose category or title contains "Data". */
  lemma SelectionContents(query: string)
    ensures forall t :: t in GenerateMockCourses(query, DefaultCount) <==>
              t in SourceTable(BranchOf(ToLower(query))) && Keeps(BranchOf(ToLower(query)), t)
  {
  }

  /** The key `course-<index>-<timestamp>`. */
  function CourseKey(index: nat, now: nat): string
  {
    "course-" + NatToString(index) + "-" + NatToString(now)
  }

  function Description(title: string): string
  {
    "Learn " + ToLower(title)
      + " from industry experts. This comprehensive course covers all essential topics and includes hands-on projects."
  }

  /** `course.image || fallback`: an empty image string is falsy. */
  function Thumbnail(image: string): (r: string)
    ensures r != ""
    ensures image != "" ==> r == image
    ensures image == "" ==> r == FallbackThumbnail
  {
    if image != "" then image else FallbackThumbnail
  }

  /** The record `fetchCourses` builds from the template at position `index`. */
  function ToCourse(t: Template, index: nat, d: Draw): (c: Course)
    ensures Lists(c, t)
    ensures c.key == CourseKey(index, d.now)
    ensures c.description == Description(t.title)
    ensures c.rating == 4.0 + d.rating * 1.0
    ensures c.students == (1000.0 + d.students * 50000.0).Floor
    ensures c.price == (29.0 + d.price * 170.0).Floor
    ensures DrawInRange(d) ==>
              && 1000 <= c.students <= 50999
              && 29 <= c.price <= 198
              && 4.0 <= c.rating < 5.0
  {
    DrawRanges(d);
    Course(
      CourseKey(index, d.now),
      t.title, t.instructor, t.category, t.level, t.duration,
      4.0 + d.rating * 1.0,
      (1000.0 + d.students * 50000.0).Floor,
      (29.0 + d.price * 170.0).Floor,
      Thumbnail(t.image),
      Description(t.title),
      LastUpdated)
  }

  /** `mockCourses.map((course, index) => ...)`: one record per template, in order,
      listing the template, keyed `course-<index>-<timestamp>`, with students, price and
      rating computed from that position's draws, and no key repeated. */
  function MapCourses(picks: seq<Template>, env: nat -> Draw): (r: seq<Course>)
    ensures |r| == |picks|
    ensures forall i :: 0 <= i < |r| ==> Lists(r[i], picks[i])
    ensures forall i :: 0 <= i < |r| ==> r[i].key == CourseKey(i, env(i).now)
    ensures forall i :: 0 <= i < |r| ==> r[i].description == Description(picks[i].title)
    ensures forall i :: 0 <= i < |r| ==>
              && r[i].rating == 4.0 + env(i).rating * 1.0
              && r[i].students == (1000.0 + env(i).students * 50000.0).Floor
              && r[i].price == (29.0 + env(i).price * 170.0).Floor
    ensures forall i :: 0 <= i < |r| && DrawInRange(env(i)) ==>
              && 1000 <= r[i].students <= 50999
              && 29 <= r[i].price <= 198
              && 4.0 <= r[i].rating < 5.0
    ensures KeysUnique(r)
  {
    KeysDistinctAcrossPositions(env, |picks|);
    var r := seq(|picks|, i requires 0 <= i < |picks| => ToCourse(picks[i], i, env(i)));
    assert forall i :: 0 <= i < |r| ==> r[i] == ToCourse(picks[i], i, env(i));
    r
  }

  /** The descriptive fields of `c` are those of template `t`, with the image fallback
      applied, and the record is marked as updated in 2024. */
  predicate Lists(c: Course, t: Template)
  {
    && c.title == t.title
    && c.instructor == t.instructor
    && c.category == t.category
    && c.level == t.level
    && c.duration == t.duration
    && (t.image != "" ==> c.thumbnail == t.image)
    && (t.image == "" ==> c.thumbnail == FallbackThumbnail)
    && c.lastUpdated == "2024"
  }

  /** No two records share a key. */
  predicate KeysUnique(cs: seq<Course>)
  {
    forall i, j :: 0 <= i < j < |cs| ==> cs[i].key != cs[j].key
  }

  /** `fetchCourses(query)`: one record per selected template, in order. The `catch`
      branch is unreachable for a string query, so the result is always a success. */
  function FetchCourses(query: string, env: nat -> Draw): (r: Result<seq<Course>, string>)
    ensures r.Success?
    ensures |r.value| == |GenerateMockCourses(query, DefaultCount)|
    ensures forall i :: 0 <= i < |r.value| ==> Lists(r.value[i], GenerateMockCourses(query, DefaultCount)[i])
    ensures forall i :: 0 <= i < |r.value| ==> r.value[i].key == CourseKey(i, env(i).now)
    ensures KeysUnique(r.value)
    ensures forall i :: 0 <= i < |r.value| ==> r.value[i].thumbnail != ""
    ensures forall i :: 0 <= i < |r.value| && DrawInRange(env(i)) ==>
              && 1000 <= r.value[i].students <= 50999
              && 29 <= r.value[i].price <= 198
              && 4.0 <= r.value[i].rating < 5.0
  {
    Success(MapCourses(GenerateMockCourses(query, DefaultCount), env))
  }

  /** Two records built at different positions never share a key, whatever the clock
      readings: the index and the timestamp are both recovered from the key. */
  lemma CourseKeyInjective(i: nat, ti: nat, j: nat, tj: nat)
    requires CourseKey(i, ti) == CourseKey(j, tj)
    ensures i == j && ti == tj
  {
    var a, b := NatToString(i), NatToString(ti);
    var c, d := NatToString(j), NatToString(tj);
    assert "course-" + a + "-" + b == "course-" + (a + "-" + b);
    assert "course-" + c + "-" + d == "course-" + (c + "-" + d);
    assert ("course-" + (a + "-" + b))[7..] == a + "-" + b;
    assert ("course-" + (c + "-" + d))[7..] == c + "-" + d;
    SplitAtDash(a, b, c, d);
    NatToStringInjective(i, j);
    NatToStringInjective(ti, tj);
  }

  /** A digit string followed by '-' is recovered unambiguously from the concatenation. */
  lemma SplitAtDash(a: string, b: string, c: string, d: string)
    requires forall k :: 0 <= k < |a| ==> IsDigit(a[k])
    requires forall k :: 0 <= k < |c| ==> IsDigit(c[k])
    requires a + "-" + b == c + "-" + d
    ensures a == c && b == d
  {
    var x := a + "-" + b;
    DashFollowsDigits(a, b);
    DashFollowsDigits(c, d);
    assert |a| == |c|;
    assert a == x[..|a|];
    assert c == x[..|c|];
    assert b == x[|a| + 1..];
    assert d == x[|c| + 1..];
  }

  /** In `a + "-" + b` with `a` made of digits, the first '-' is at index `|a|`. */
  lemma DashFollowsDigits(a: string, b: string)
    requires forall k :: 0 <= k < |a| ==> IsDigit(a[k])
    ensures (a + "-" + b)[|a|] == '-'
    ensures forall k :: 0 <= k < |a| ==> (a + "-" + b)[k] != '-'
  {
  }

  /** Records at different positions never share a key, whatever the timestamps. */
  lemma DistinctPositionsDistinctKeys(i: nat, ti: nat, j: nat, tj: nat)
    requires i != j
    ensures CourseKey(i, ti) != CourseKey(j, tj)
  {
    if CourseKey(i, ti) == CourseKey(j, tj) {
      CourseKeyInjective(i, ti, j, tj);
    }
  }

  /** `Math.floor(1000 + r * 50000)` and `Math.floor(29 + r * 170)` for r in [0, 1). */
  lemma DrawRanges(d: Draw)
    ensures DrawInRange(d) ==>
              && 1000 <= (1000.0 + d.students * 50000.0).Floor <= 50999
              && 29 <= (29.0 + d.price * 170.0).Floor <= 198
  {
  }

  /** The keys of a batch of `n` records are pairwise distinct. */
  lemma KeysDistinctAcrossPositions(env: nat -> Draw, n: nat)
    ensures forall i, j :: 0 <= i < j < n ==> CourseKey(i, env(i).now) != CourseKey(j, env(j).now)
  {
    forall i, j | 0 <= i < j < n
      ensures CourseKey(i, env(i).now) != CourseKey(j, env(j).now)
    {
      DistinctPositionsDistinctKeys(i, env(i).now, j, env(j).now);
    }
  }

  /** `getCoverImageUrl(thumbnail)`: `thumbnail || null`. */
  function GetCoverImageUrl(thumbnail: string): (r: Option<string>)
    ensures r.None? <==> thumbnail == ""
    ensures r.Some? ==> r.value == thumbnail
  {
    if thumbnail != "" then Some(thumbnail) else None
  }

  /** Every course `fetchCourses` returns has a cover image: the fallback keeps the
      thumbnail non-empty, so `getCoverImageUrl` never yields null for it. */
  lemma FetchedCoursesHaveCover(query: string, env: nat -> Draw)
    ensures var cs := FetchCourses(query, env).value;
            forall i :: 0 <= i < |cs| ==> GetCoverImageUrl(cs[i].thumbnail) == Some(cs[i].thumbnail)
  {
  }
}
