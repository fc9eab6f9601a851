// A student's progress through a course's lectures: the total running
// time, and what marking a lecture complete adds to the progress record.

module CoursePage {
  import opened Seqs

  datatype Lecture = Lecture(id: string, title: string, videoUrl: string, duration: int, completed: bool)

  datatype CourseProgress = CourseProgress(
    completedLectures: seq<string>,
    totalProgress: real,
    totalDuration: int,
    watchedDuration: int)

  /** The lecture list the page builds for any course it finds. */
  const MockLectures: seq<Lecture> :=
    [Lecture("1", "Introduction to the Course", "https://example.com/video1.mp4", 300, false)]

  /** `reduce((acc, lecture) => acc + lecture.duration, 0)`. */
  function TotalDuration(ls: seq<Lecture>): (r: int)
    ensures (forall i :: 0 <= i < |ls| ==> ls[i].duration >= 0) ==> r >= 0
  {
    if ls == [] then 0 else ls[0].duration + TotalDuration(ls[1..])
  }

  function Ids(ls: seq<Lecture>): (r: seq<string>)
    ensures |r| == |ls|
    ensures forall i :: 0 <= i < |ls| ==> r[i] == ls[i].id
  {
    seq(|ls|, i requires 0 <= i < |ls| => ls[i].id)
  }

  function IsCompletedIn(completed: seq<string>): Lecture -> bool {
    (l: Lecture) => l.id in completed
  }

  /** The running time of the lectures whose id has been marked complete. */
  function WatchedDuration(ls: seq<Lecture>, completed: seq<string>): int {
    TotalDuration(Filter(ls, IsCompletedIn(completed)))
  }

  /** The record set once the lectures are loaded. */
  function InitialProgress(ls: seq<Lecture>): (r: CourseProgress)
    ensures r.completedLectures == [] && r.watchedDuration == 0 && r.totalProgress == 0.0
    ensures r.totalDuration == TotalDuration(ls)
  {
    CourseProgress([], 0.0, TotalDuration(ls), 0)
  }

  /** Mark Complete is offered only for a lecture not yet completed. */
  predicate MarkCompleteEnabled(p: CourseProgress, lectureId: string) {
    lectureId !in p.completedLectures
  }

  /**
   * `handleLectureComplete`'s updater. The page offers the button only
   * for a listed lecture, so the list is never empty here.
   */
  function CompleteLecture(ls: seq<Lecture>, prev: CourseProgress, lectureId: string): (r: CourseProgress)
    requires |ls| > 0
    ensures r.completedLectures == prev.completedLectures + [lectureId]
    ensures r.totalDuration == prev.totalDuration
    ensures r.watchedDuration == WatchedDuration(ls, r.completedLectures)
    ensures r.totalProgress == Percent(|r.completedLectures|, |ls|)
  {
    var completed := prev.completedLectures + [lectureId];
    prev.(completedLectures := completed,
          watchedDuration := WatchedDuration(ls, completed),
          totalProgress := Percent(|completed|, |ls|))
  }

  /** `(part / whole) * 100`. */
  function Percent(part: nat, whole: nat): (r: real)
    requires whole > 0
    ensures r * (whole as real) == (part as real) * 100.0
  {
    (part as real / whole as real) * 100.0
  }

  /** A part no larger than the whole is at most 100 per cent. */
  lemma PercentAtMostHundred(part: nat, whole: nat)
    requires 0 < whole && part <= whole
    ensures 0.0 <= Percent(part, whole) <= 100.0
  {
    ShareAtMostHundred(Percent(part, whole), whole as real, part as real);
  }

  /** Dropping lectures from the sum never makes it larger. */
  lemma {:induction false} FilteredDurationAtMostTotal(ls: seq<Lecture>, p: Lecture -> bool)
    requires forall i :: 0 <= i < |ls| ==> ls[i].duration >= 0
    ensures 0 <= TotalDuration(Filter(ls, p)) <= TotalDuration(ls)
  {
    if ls != [] {
      FilteredDurationAtMostTotal(ls[1..], p);
      var rest := Filter(ls[1..], p);
      if p(ls[0]) {
        assert Filter(ls, p) == [ls[0]] + rest;
        assert ([ls[0]] + rest)[1..] == rest;
      } else {
        assert Filter(ls, p) == rest;
      }
    }
  }

  /** The watched time never exceeds the course's running time. */
  lemma WatchedAtMostTotal(ls: seq<Lecture>, completed: seq<string>)
    requires forall i :: 0 <= i < |ls| ==> ls[i].duration >= 0
    ensures 0 <= WatchedDuration(ls, completed) <= TotalDuration(ls)
  {
    FilteredDurationAtMostTotal(ls, IsCompletedIn(completed));
  }

  /**
   * The progress records the page can reach: the total is the lectures'
   * running time, and the completed ids have no repeats and are all listed.
   */
  ghost predicate Reachable(ls: seq<Lecture>, p: CourseProgress) {
    && p.totalDuration == TotalDuration(ls)
    && Distinct(p.completedLectures)
    && (forall i :: 0 <= i < |p.completedLectures| ==> p.completedLectures[i] in Ids(ls))
  }

  /** The page starts from a reachable record. */
  lemma InitialProgressReachable(ls: seq<Lecture>)
    ensures Reachable(ls, InitialProgress(ls))
  {
  }

  /** At most as many lectures are completed as there are lectures. */
  lemma CompletedAtMostLectures(ls: seq<Lecture>, p: CourseProgress)
    requires Reachable(ls, p)
    ensures |p.completedLectures| <= |ls|
  {
    DistinctCardinality(p.completedLectures);
    SetCardinalityAtMost(Ids(ls));
    SubsetCardinality(set x | x in p.completedLectures, set x | x in Ids(ls));
  }

  /** The enabled button on a listed lecture keeps the record reachable. */
  lemma GuardedCompletionKeepsReachable(ls: seq<Lecture>, prev: CourseProgress, lectureId: string)
    requires |ls| > 0
    requires Reachable(ls, prev)
    requires lectureId in Ids(ls) && MarkCompleteEnabled(prev, lectureId)
    ensures Reachable(ls, CompleteLecture(ls, prev, lectureId))
  {
    var c := CompleteLecture(ls, prev, lectureId).completedLectures;
    assert c == prev.completedLectures + [lectureId];
    forall i, j | 0 <= i < j < |c| ensures c[i] != c[j] {
      if j == |c| - 1 {
        assert c[i] in prev.completedLectures;
      }
    }
  }

  lemma ShareAtMostHundred(progress: real, n: real, c: real)
    requires 0.0 < n && 0.0 <= c <= n
    requires progress * n == c * 100.0
    ensures 0.0 <= progress <= 100.0
  {
  }

  /**
   * Marking a listed lecture complete through the enabled button keeps the
   * progress within 0 to 100 per cent and the watched time within the
   * running time.
   */
  lemma GuardedCompletionStaysBounded(ls: seq<Lecture>, prev: CourseProgress, lectureId: string)
    requires |ls| > 0
    requires forall i :: 0 <= i < |ls| ==> ls[i].duration >= 0
    requires Reachable(ls, prev)
    requires lectureId in Ids(ls) && MarkCompleteEnabled(prev, lectureId)
    ensures 0.0 <= CompleteLecture(ls, prev, lectureId).totalProgress <= 100.0
    ensures 0 <= CompleteLecture(ls, prev, lectureId).watchedDuration <= TotalDuration(ls)
    ensures CompleteLecture(ls, prev, lectureId).watchedDuration <= CompleteLecture(ls, prev, lectureId).totalDuration
  {
    var r := CompleteLecture(ls, prev, lectureId);
    GuardedCompletionKeepsReachable(ls, prev, lectureId);
    CompletedAtMostLectures(ls, r);
    WatchedAtMostTotal(ls, r.completedLectures);
    PercentAtMostHundred(|r.completedLectures|, |ls|);
  }

  /** The page's single mock lecture runs five minutes. */
  lemma MockTotalDuration()
    ensures InitialProgress(MockLectures).totalDuration == 300
  {
    assert MockLectures[1..] == [];
  }
}
