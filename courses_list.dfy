// The instructor's course list on the dashboard: which courses the two
// visibility toggles let through, the order the sort buttons give them,
// and the request the publish switch sends.

module CoursesList {
  import opened Seqs
  import opened DashboardSlice

  datatype SortBy = ByDate | ByStudents | ByRating

  /** The filter's predicate for the two toggles. */
  function ShownBy(showPublished: bool, showUnpublished: bool): Course -> bool {
    (c: Course) => (showPublished && c.isPublished) || (showUnpublished && !c.isPublished)
  }

  function FilteredCourses(cs: seq<Course>, showPublished: bool, showUnpublished: bool): (r: seq<Course>)
    ensures |r| <= |cs|
    ensures forall c :: c in r <==>
      c in cs && ((showPublished && c.isPublished) || (showUnpublished && !c.isPublished))
  {
    Filter(cs, ShownBy(showPublished, showUnpublished))
  }

  /**
   * The value each sort button orders by, largest first. `dateOf` stands
   * for reading a `lastUpdated` string as a timestamp.
   */
  function SortKey(sortBy: SortBy, dateOf: string -> real): Course -> real {
    match sortBy
    case ByDate => (c: Course) => dateOf(c.lastUpdated)
    case ByStudents => EnrolmentKey()
    case ByRating => (c: Course) => c.averageRating
  }

  /** `sortedAndFilteredCourses`: the filtered courses, ordered by the chosen key. */
  function SortedAndFilteredCourses(cs: seq<Course>, sortBy: SortBy, showPublished: bool, showUnpublished: bool,
                                    dateOf: string -> real): (r: seq<Course>)
    ensures multiset(r) == multiset(FilteredCourses(cs, showPublished, showUnpublished))
    ensures SortedDesc(r, SortKey(sortBy, dateOf))
  {
    SortDesc(FilteredCourses(cs, showPublished, showUnpublished), SortKey(sortBy, dateOf))
  }

  /** The empty-state message appears exactly when nothing is listed. */
  predicate ShowsEmptyMessage(cs: seq<Course>, sortBy: SortBy, showPublished: bool, showUnpublished: bool,
                              dateOf: string -> real)
  {
    |SortedAndFilteredCourses(cs, sortBy, showPublished, showUnpublished, dateOf)| == 0
  }

  /** A listed course is exactly a course of the store that the toggles let through. */
  lemma ListedIffShown(cs: seq<Course>, sortBy: SortBy, showPublished: bool, showUnpublished: bool,
                       dateOf: string -> real, c: Course)
    ensures c in SortedAndFilteredCourses(cs, sortBy, showPublished, showUnpublished, dateOf) <==>
      c in cs && ((showPublished && c.isPublished) || (showUnpublished && !c.isPublished))
  {
    var r := SortedAndFilteredCourses(cs, sortBy, showPublished, showUnpublished, dateOf);
    assert c in r <==> c in multiset(r);
    assert c in FilteredCourses(cs, showPublished, showUnpublished) <==>
      c in multiset(FilteredCourses(cs, showPublished, showUnpublished));
  }

  /** With both toggles off the list is empty and the empty-state message shows. */
  lemma BothTogglesOffShowNothing(cs: seq<Course>, sortBy: SortBy, dateOf: string -> real)
    ensures SortedAndFilteredCourses(cs, sortBy, false, false, dateOf) == []
    ensures ShowsEmptyMessage(cs, sortBy, false, false, dateOf)
  {
    var f := FilteredCourses(cs, false, false);
    FilterKeepsNone(cs, ShownBy(false, false));
    assert |multiset(SortedAndFilteredCourses(cs, sortBy, false, false, dateOf))| == |multiset(f)|;
  }

  /** With both toggles on every course is listed, none twice and none dropped. */
  lemma BothTogglesOnListEverything(cs: seq<Course>, sortBy: SortBy, dateOf: string -> real)
    ensures multiset(SortedAndFilteredCourses(cs, sortBy, true, true, dateOf)) == multiset(cs)
  {
    FilterKeepsAll(cs, ShownBy(true, true));
  }

  /** The students sort puts the most enrolled course first. */
  lemma StudentsSortOrdersByEnrolment(cs: seq<Course>, showPublished: bool, showUnpublished: bool,
                                      dateOf: string -> real)
    ensures var r := SortedAndFilteredCourses(cs, ByStudents, showPublished, showUnpublished, dateOf);
      forall i, j :: 0 <= i < j < |r| ==> r[i].enrolledStudents >= r[j].enrolledStudents
  {
    var r := SortedAndFilteredCourses(cs, ByStudents, showPublished, showUnpublished, dateOf);
    forall i, j | 0 <= i < j < |r| ensures r[i].enrolledStudents >= r[j].enrolledStudents {
      assert EnrolmentKey()(r[i]) >= EnrolmentKey()(r[j]);
    }
  }

  /** Courses that tie on the chosen key are listed in the order the filter kept them. */
  lemma TiesKeepListOrder(cs: seq<Course>, sortBy: SortBy, showPublished: bool, showUnpublished: bool,
                          dateOf: string -> real, v: real)
    ensures var key := SortKey(sortBy, dateOf);
      Filter(SortedAndFilteredCourses(cs, sortBy, showPublished, showUnpublished, dateOf), HasKey(key, v)) ==
      Filter(FilteredCourses(cs, showPublished, showUnpublished), HasKey(key, v))
  {
    SortDescStable(FilteredCourses(cs, showPublished, showUnpublished), SortKey(sortBy, dateOf), v);
  }

  /** Every course is either listed under "published" or under "unpublished", never both. */
  lemma {:induction false} PublishedAndUnpublishedSplit(cs: seq<Course>)
    ensures |FilteredCourses(cs, true, false)| + |FilteredCourses(cs, false, true)| == |cs|
  {
    if cs != [] {
      PublishedAndUnpublishedSplit(cs[1..]);
    }
  }

  // ---------------------------------------------------------------------
  // The publish switch
  // ---------------------------------------------------------------------

  datatype PublishRequest = PublishCourse(courseId: string) | UnpublishCourse(courseId: string)

  /** `handlePublishToggle`: a published course is unpublished and the other way round. */
  function PublishToggle(courseId: string, currentStatus: bool): (r: PublishRequest)
    ensures r.courseId == courseId
    ensures r.UnpublishCourse? <==> currentStatus
  {
    if currentStatus then UnpublishCourse(courseId) else PublishCourse(courseId)
  }

  /** The course list once the store has handled the request. */
  function Fulfil(cs: seq<Course>, req: PublishRequest): (r: seq<Course>)
    ensures |r| == |cs|
  {
    SetPublished(cs, req.courseId, req.PublishCourse?)
  }

  /** Toggling the switch of a listed course flips its flag and nothing else. */
  lemma ToggleFlipsFlag(cs: seq<Course>, i: int)
    requires 0 <= i < |cs|
    requires forall j :: 0 <= j < i ==> cs[j].id != cs[i].id
    ensures var r := Fulfil(cs, PublishToggle(cs[i].id, cs[i].isPublished));
      && r[i] == cs[i].(isPublished := !cs[i].isPublished)
      && forall j :: 0 <= j < |cs| && j != i ==> r[j] == cs[j]
  {
    var k := FindIndex(cs, IsCourse(cs[i].id));
    assert IsCourse(cs[i].id)(cs[i]);
  }

  /** Toggling twice restores the list. */
  lemma ToggleTwiceRestores(cs: seq<Course>, i: int)
    requires 0 <= i < |cs|
    requires forall j :: 0 <= j < i ==> cs[j].id != cs[i].id
    ensures var once := Fulfil(cs, PublishToggle(cs[i].id, cs[i].isPublished));
      Fulfil(once, PublishToggle(cs[i].id, once[i].isPublished)) == cs
  {
    ToggleFlipsFlag(cs, i);
    SetPublishedRoundTrip(cs, cs[i].id, !cs[i].isPublished);
  }

  /** The switch's handler; the publish requests always succeed. */
  method HandlePublishToggle(store: DashboardStore, courseId: string, currentStatus: bool)
    modifies store`courses
    ensures store.courses == Fulfil(old(store.courses), PublishToggle(courseId, currentStatus))
  {
    if currentStatus {
      store.UnpublishFulfilled(courseId);
    } else {
      store.PublishFulfilled(courseId);
    }
  }
}
