// The instructor dashboard's state: the course list with its publish
// flags, the popular-courses selection, and the loading and error flags
// driven by the fetch request's lifecycle.

module DashboardSlice {
  import opened Wrappers
  import opened Seqs

  datatype Course = Course(
    id: string,
    title: string,
    subtitle: string,
    thumbnail: string,
    enrolledStudents: int,
    averageRating: real,
    isPublished: bool,
    lastUpdated: string)

  datatype Student = Student(
    id: string,
    name: string,
    email: string,
    enrollmentDate: string,
    coursesEnrolled: int,
    completedCourses: int,
    avatarUrl: string)

  datatype ActivityKind = Enrollment | Completion | Review | Question

  datatype RecentActivity = RecentActivity(
    id: string,
    kind: ActivityKind,
    courseId: string,
    courseTitle: string,
    studentName: string,
    date: string,
    content: Option<string>,
    rating: Option<int>)

  datatype CourseAnalytics = CourseAnalytics(totalEnrollments: int, averageRating: real, completionRate: real)

  /** What a successful fetch hands to the store. */
  datatype DashboardData = DashboardData(
    courses: seq<Course>,
    students: seq<Student>,
    recentActivity: seq<RecentActivity>,
    courseAnalytics: CourseAnalytics,
    popularCourses: seq<Course>)

  // ---------------------------------------------------------------------
  // Sorting by a descending key (`sort((a, b) => key(b) - key(a))`)
  // ---------------------------------------------------------------------

  predicate SortedDesc(cs: seq<Course>, key: Course -> real) {
    forall i, j :: 0 <= i < j < |cs| ==> key(cs[i]) >= key(cs[j])
  }

  /** Places `c` before the first course whose key is not above its own. */
  function InsertDesc(c: Course, cs: seq<Course>, key: Course -> real): (r: seq<Course>)
    ensures multiset(r) == multiset(cs) + multiset{c}
  {
    if cs == [] || key(cs[0]) <= key(c) then [c] + cs
    else
      assert cs == [cs[0]] + cs[1..];
      [cs[0]] + InsertDesc(c, cs[1..], key)
  }

  /** Inserting into a sorted list keeps it sorted. */
  lemma {:induction false} InsertDescSorted(c: Course, cs: seq<Course>, key: Course -> real)
    requires SortedDesc(cs, key)
    ensures SortedDesc(InsertDesc(c, cs, key), key)
  {
    if cs == [] || key(cs[0]) <= key(c) {
    } else {
      var rest := InsertDesc(c, cs[1..], key);
      InsertDescSorted(c, cs[1..], key);
      forall k | 0 <= k < |rest| ensures key(cs[0]) >= key(rest[k]) {
        assert rest[k] in multiset(rest);
        if rest[k] != c {
          assert rest[k] in multiset(cs[1..]);
          var j :| 0 <= j < |cs[1..]| && cs[1..][j] == rest[k];
          assert cs[1 + j] == rest[k];
        }
      }
    }
  }

  /** A stable sort on a descending key. */
  function SortDesc(cs: seq<Course>, key: Course -> real): (r: seq<Course>)
    ensures SortedDesc(r, key)
    ensures multiset(r) == multiset(cs)
  {
    if cs == [] then []
    else
      assert cs == [cs[0]] + cs[1..];
      InsertDescSorted(cs[0], SortDesc(cs[1..], key), key);
      InsertDesc(cs[0], SortDesc(cs[1..], key), key)
  }

  /** The courses whose key is `v`: one class of ties. */
  function HasKey(key: Course -> real, v: real): Course -> bool {
    (c: Course) => key(c) == v
  }

  /**
   * Insertion puts `c` ahead of every course already there with the same
   * key, and leaves the other classes of ties as they were.
   */
  lemma {:induction false} InsertDescTies(c: Course, t: seq<Course>, key: Course -> real, v: real)
    ensures Filter(InsertDesc(c, t, key), HasKey(key, v)) ==
      (if key(c) == v then [c] else []) + Filter(t, HasKey(key, v))
  {
    if t == [] || key(t[0]) <= key(c) {
      assert ([c] + t)[1..] == t;
    } else {
      assert ([t[0]] + InsertDesc(c, t[1..], key))[1..] == InsertDesc(c, t[1..], key);
      InsertDescTies(c, t[1..], key, v);
    }
  }

  /** The sort is stable: courses with equal keys keep their input order. */
  lemma {:induction false} SortDescStable(cs: seq<Course>, key: Course -> real, v: real)
    ensures Filter(SortDesc(cs, key), HasKey(key, v)) == Filter(cs, HasKey(key, v))
  {
    if cs != [] {
      SortDescStable(cs[1..], key, v);
      InsertDescTies(cs[0], SortDesc(cs[1..], key), key, v);
    }
  }

  function EnrolmentKey(): Course -> real {
    (c: Course) => c.enrolledStudents as real
  }

  /** Every course's key is strictly above those of the courses after it. */
  predicate StrictlyDesc(cs: seq<Course>, key: Course -> real) {
    forall i, j :: 0 <= i < j < |cs| ==> key(cs[i]) > key(cs[j])
  }

  /** A sort whose result could have no ties has only one possible outcome. */
  lemma {:induction false} StrictOrderUnique(r: seq<Course>, t: seq<Course>, key: Course -> real)
    requires StrictlyDesc(r, key) && SortedDesc(t, key)
    requires multiset(r) == multiset(t)
    ensures r == t
  {
    assert |r| == |multiset(r)| == |t|;
    if r != [] {
      HeadsAgree(r, t, key);
      TailsPermute(r, t);
      StrictTail(r, key);
      SortedTail(t, key);
      StrictOrderUnique(r[1..], t[1..], key);
      assert r == [r[0]] + r[1..] && t == [t[0]] + t[1..];
    }
  }

  lemma StrictTail(r: seq<Course>, key: Course -> real)
    requires r != [] && StrictlyDesc(r, key)
    ensures StrictlyDesc(r[1..], key)
  {
    forall i, j | 0 <= i < j < |r[1..]| ensures key(r[1..][i]) > key(r[1..][j]) {
      assert r[1..][i] == r[i + 1] && r[1..][j] == r[j + 1];
    }
  }

  lemma SortedTail(r: seq<Course>, key: Course -> real)
    requires r != [] && SortedDesc(r, key)
    ensures SortedDesc(r[1..], key)
  {
    forall i, j | 0 <= i < j < |r[1..]| ensures key(r[1..][i]) >= key(r[1..][j]) {
      assert r[1..][i] == r[i + 1] && r[1..][j] == r[j + 1];
    }
  }

  lemma HeadsAgree(r: seq<Course>, t: seq<Course>, key: Course -> real)
    requires r != [] && t != []
    requires StrictlyDesc(r, key) && SortedDesc(t, key)
    requires multiset(r) == multiset(t)
    ensures r[0] == t[0]
  {
    assert r[0] in multiset(t) && t[0] in multiset(r);
    var i :| 0 <= i < |t| && t[i] == r[0];
    var j :| 0 <= j < |r| && r[j] == t[0];
    assert key(t[0]) >= key(t[i]);
  }

  lemma TailsPermute(r: seq<Course>, t: seq<Course>)
    requires r != [] && t != [] && r[0] == t[0]
    requires multiset(r) == multiset(t)
    ensures multiset(r[1..]) == multiset(t[1..])
  {
    assert r == [r[0]] + r[1..] && t == [t[0]] + t[1..];
    assert multiset(r[1..]) == multiset(r) - multiset{r[0]};
    assert multiset(t[1..]) == multiset(t) - multiset{t[0]};
  }

  // ---------------------------------------------------------------------
  // Popular courses
  // ---------------------------------------------------------------------

  /** The three courses with the most enrolments, most first. */
  function PopularCourses(cs: seq<Course>): (r: seq<Course>)
    ensures |r| == if |cs| < 3 then |cs| else 3
    ensures SortedDesc(r, EnrolmentKey())
    ensures multiset(r) <= multiset(cs)
  {
    var sorted := SortDesc(cs, EnrolmentKey());
    var n := if |cs| < 3 then |cs| else 3;
    assert sorted == sorted[..n] + sorted[n..];
    assert multiset(sorted) == multiset(sorted[..n]) + multiset(sorted[n..]);
    sorted[..n]
  }

  /** No course left out has more enrolments than any course chosen. */
  lemma PopularAreTop(cs: seq<Course>)
    ensures forall x, y :: x in multiset(cs) - multiset(PopularCourses(cs)) && y in PopularCourses(cs) ==>
      y.enrolledStudents >= x.enrolledStudents
  {
    var sorted := SortDesc(cs, EnrolmentKey());
    var n := if |cs| < 3 then |cs| else 3;
    var r := PopularCourses(cs);
    assert |sorted| == |multiset(sorted)| == |cs|;
    assert r == sorted[..n];
    assert sorted == r + sorted[n..];
    assert multiset(cs) == multiset(r) + multiset(sorted[n..]);
    forall x, y | x in multiset(cs) - multiset(r) && y in r
      ensures y.enrolledStudents >= x.enrolledStudents
    {
      assert x in multiset(sorted[n..]);
      var j :| 0 <= j < |sorted[n..]| && sorted[n..][j] == x;
      var i :| 0 <= i < |r| && r[i] == y;
      assert sorted[i] == y && sorted[n + j] == x;
      assert EnrolmentKey()(sorted[i]) >= EnrolmentKey()(sorted[n + j]);
    }
  }

  // ---------------------------------------------------------------------
  // Fetching
  // ---------------------------------------------------------------------

  // The built-in courses used when the API request fails.
  const MockReact := Course("1", "Introduction to React", "Learn React basics for beginners",
    "https://images.unsplash.com/photo-1488590528505-98d2b5aba04b", 254, 4.7, true, "2025-04-15")
  const MockTypeScript := Course("2", "Advanced TypeScript", "Master TypeScript for enterprise applications",
    "https://images.unsplash.com/photo-1461749280684-dccba630e2f6", 187, 4.9, true, "2025-04-10")
  const MockDesign := Course("3", "UI/UX Design Fundamentals", "Create beautiful and usable interfaces",
    "https://images.unsplash.com/photo-1486312338219-ce68d2c6f44d", 320, 4.6, true, "2025-04-05")
  const MockNode := Course("4", "Node.js Backend Development", "Build scalable backends with Node.js",
    "https://images.unsplash.com/photo-1487058792275-0ad4aaf24ca7", 146, 4.3, false, "2025-04-20")
  const MockMachineLearning := Course("5", "Machine Learning Basics", "Introduction to AI and machine learning",
    "https://images.unsplash.com/photo-1581091226825-a6a2a5aee158", 275, 4.8, true, "2025-03-28")

  const MockCourses: seq<Course> := [MockReact, MockTypeScript, MockDesign, MockNode, MockMachineLearning]

  /** The mock courses, most enrolments first. */
  const MockByEnrolment: seq<Course> := [MockDesign, MockMachineLearning, MockReact, MockTypeScript, MockNode]

  lemma MockByEnrolmentStrict()
    ensures StrictlyDesc(MockByEnrolment, EnrolmentKey())
  {
  }

  lemma MockByEnrolmentPermutes()
    ensures multiset(MockByEnrolment) == multiset(MockCourses)
  {
  }

  // The mock list is passed as a parameter equal to it, which keeps the
  // solver from evaluating the sort on the literal.
  lemma MockSortedByEnrolment(cs: seq<Course>)
    requires cs == MockCourses
    ensures SortDesc(cs, EnrolmentKey()) == MockByEnrolment
  {
    MockByEnrolmentStrict();
    MockByEnrolmentPermutes();
    StrictOrderUnique(MockByEnrolment, SortDesc(cs, EnrolmentKey()), EnrolmentKey());
  }

  lemma MockTopThree()
    ensures MockByEnrolment[..3] == [MockDesign, MockMachineLearning, MockReact]
  {
  }

  lemma MockPopularPrefix(cs: seq<Course>)
    requires cs == MockCourses
    ensures PopularCourses(cs) == MockByEnrolment[..3]
  {
    MockSortedByEnrolment(cs);
  }

  /** Without the API the popular courses are the mock courses 3, 5 and 1. */
  lemma MockPopularCourses(cs: seq<Course>)
    requires cs == MockCourses
    ensures PopularCourses(cs) == [MockDesign, MockMachineLearning, MockReact]
  {
    MockPopularPrefix(cs);
    MockTopThree();
  }

  /** The responses of the four API requests, when all of them succeed. */
  datatype ApiResponses = ApiResponses(
    courses: seq<Course>,
    students: seq<Student>,
    recentActivity: seq<RecentActivity>,
    courseAnalytics: CourseAnalytics)

  /**
   * fetchDashboardData as written. On the API path the popular courses
   * are sorted in place on the response array, which is also the array
   * returned as `courses`; the fallback path sorts a copy.
   */
  function FetchDashboardData(api: Option<ApiResponses>, mockStudents: seq<Student>,
                              mockActivity: seq<RecentActivity>): (r: DashboardData)
    ensures api.Some? ==> r.popularCourses == PopularCourses(api.value.courses)
    ensures api.Some? ==> r.courses == SortDesc(api.value.courses, EnrolmentKey())
    ensures api.None? ==> r.courses == MockCourses && r.popularCourses == PopularCourses(MockCourses)
  {
    match api
    case Some(res) =>
      var sortedInPlace := SortDesc(res.courses, EnrolmentKey());
      DashboardData(sortedInPlace, res.students, res.recentActivity, res.courseAnalytics, PopularCourses(res.courses))
    case None =>
      DashboardData(MockCourses, mockStudents, mockActivity, CourseAnalytics(1182, 4.7, 68.0), PopularCourses(MockCourses))
  }

  /** The API path reorders the fetched course list by enrolment. */
  lemma ApiPathReordersCourses(a: Course, b: Course, api: ApiResponses, ms: seq<Student>, ma: seq<RecentActivity>)
    requires a.enrolledStudents < b.enrolledStudents
    requires api.courses == [a, b]
    ensures FetchDashboardData(Some(api), ms, ma).courses == [b, a]
    ensures FetchDashboardData(Some(api), ms, ma).courses != api.courses
  {
    assert SortDesc([b], EnrolmentKey()) == [b];
    assert [a, b][1..] == [b];
  }

  /** fetchDashboardData as intended: the popular courses come from a copy. */
  function FetchDashboardDataIntended(api: Option<ApiResponses>, mockStudents: seq<Student>,
                                      mockActivity: seq<RecentActivity>): (r: DashboardData)
    ensures api.Some? ==> r.courses == api.value.courses && r.popularCourses == PopularCourses(api.value.courses)
    ensures api.None? ==> r == FetchDashboardData(api, mockStudents, mockActivity)
    ensures r.popularCourses == FetchDashboardData(api, mockStudents, mockActivity).popularCourses
  {
    match api
    case Some(res) =>
      DashboardData(res.courses, res.students, res.recentActivity, res.courseAnalytics, PopularCourses(res.courses))
    case None => FetchDashboardData(api, mockStudents, mockActivity)
  }

  // ---------------------------------------------------------------------
  // Publishing
  // ---------------------------------------------------------------------

  function IsCourse(id: string): Course -> bool {
    (c: Course) => c.id == id
  }

  /**
   * `courses.find(c => c.id === id)` followed by setting its flag: only
   * the first course with that id changes; an unknown id changes nothing.
   */
  function SetPublished(cs: seq<Course>, id: string, flag: bool): (r: seq<Course>)
    ensures |r| == |cs|
    ensures (forall j :: 0 <= j < |cs| ==> cs[j].id != id) ==> r == cs
    ensures var i := FindIndex(cs, IsCourse(id));
      0 <= i ==>
        && cs[i].id == id
        && r[i] == cs[i].(isPublished := flag)
        && (forall j :: 0 <= j < i ==> cs[j].id != id)
        && (forall j :: 0 <= j < |cs| && j != i ==> r[j] == cs[j])
  {
    var i := FindIndex(cs, IsCourse(id));
    if i == -1 then cs else cs[i := cs[i].(isPublished := flag)]
  }

  /** Setting the flag back to what it was undoes a publish or unpublish. */
  lemma SetPublishedRoundTrip(cs: seq<Course>, id: string, flag: bool)
    requires exists j :: 0 <= j < |cs| && cs[j].id == id
    ensures var i := FindIndex(cs, IsCourse(id));
      SetPublished(SetPublished(cs, id, flag), id, cs[i].isPublished) == cs
  {
    var i := FindIndex(cs, IsCourse(id));
    var r := SetPublished(cs, id, flag);
    assert IsCourse(id)(r[i]);
  }

  /** The message stored when a failed fetch carries none. */
  const DefaultFetchError: string := "Failed to fetch dashboard data"

  /** The dashboard store, updated in place by the request lifecycle. */
  class DashboardStore {
    var courses: seq<Course>
    var students: seq<Student>
    var recentActivity: seq<RecentActivity>
    var courseAnalytics: CourseAnalytics
    var popularCourses: seq<Course>
    var isLoading: bool
    var error: Option<string>

    constructor ()
      ensures courses == [] && students == [] && recentActivity == [] && popularCourses == []
      ensures courseAnalytics == CourseAnalytics(0, 0.0, 0.0)
      ensures !isLoading && error.None?
    {
      courses := [];
      students := [];
      recentActivity := [];
      courseAnalytics := CourseAnalytics(0, 0.0, 0.0);
      popularCourses := [];
      isLoading := false;
      error := None;
    }

    /** fetchDashboardData.pending. */
    method Pending()
      modifies this`isLoading, this`error
      ensures isLoading && error.None?
    {
      isLoading := true;
      error := None;
    }

    /** fetchDashboardData.fulfilled: the error is left as it was. */
    method Fulfilled(payload: DashboardData)
      modifies this`isLoading, this`courses, this`students, this`recentActivity,
               this`courseAnalytics, this`popularCourses
      ensures !isLoading
      ensures courses == payload.courses && students == payload.students
      ensures recentActivity == payload.recentActivity && courseAnalytics == payload.courseAnalytics
      ensures popularCourses == payload.popularCourses
    {
      isLoading := false;
      courses := payload.courses;
      students := payload.students;
      recentActivity := payload.recentActivity;
      courseAnalytics := payload.courseAnalytics;
      popularCourses := payload.popularCourses;
    }

    /** fetchDashboardData.rejected: an empty or missing payload gives the default message. */
    method Rejected(payload: Option<string>)
      modifies this`isLoading, this`error
      ensures !isLoading
      ensures error == Some(if payload.Some? && payload.value != "" then payload.value else DefaultFetchError)
    {
      isLoading := false;
      if payload.Some? && payload.value != "" {
        error := payload;
      } else {
        error := Some(DefaultFetchError);
      }
    }

    /** publishCourse.fulfilled. */
    method PublishFulfilled(courseId: string)
      modifies this`courses
      ensures courses == SetPublished(old(courses), courseId, true)
    {
      var i := FindIndex(courses, IsCourse(courseId));
      if i != -1 {
        courses := courses[i := courses[i].(isPublished := true)];
      }
    }

    /** unpublishCourse.fulfilled. */
    method UnpublishFulfilled(courseId: string)
      modifies this`courses
      ensures courses == SetPublished(old(courses), courseId, false)
    {
      var i := FindIndex(courses, IsCourse(courseId));
      if i != -1 {
        courses := courses[i := courses[i].(isPublished := false)];
      }
    }
  }
}
