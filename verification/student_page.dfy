/** The student's learning page (src/app/student/page.tsx): the enrolled
    courses split into completed / in progress / not started, the progress
    colour, the per-course controls, and the page's role guard. Progress is
    a percentage, modelled as a `real`. */
module StudentPage {
  import opened Common
  import opened Claims
  import Middleware
  import RequireRole

  datatype EnrolledCourse = EnrolledCourse(
    id: int, title: string, slug: string, level: string, progress: real,
    lastWatched: Option<string>, totalLessons: int, completedLessons: int, estimatedTimeLeft: string)

  predicate IsCompleted(c: EnrolledCourse) { c.progress == 100.0 }
  predicate IsInProgress(c: EnrolledCourse) { 0.0 < c.progress < 100.0 }
  predicate IsNotStarted(c: EnrolledCourse) { c.progress == 0.0 }
  predicate InRange(c: EnrolledCourse) { 0.0 <= c.progress <= 100.0 }

  /** A progress in [0, 100] lands in exactly one bucket; any other lands in none. */
  lemma BucketsPartition(c: EnrolledCourse)
    ensures InRange(c) ==> (IsCompleted(c) || IsInProgress(c) || IsNotStarted(c))
    ensures !(IsCompleted(c) && IsInProgress(c)) && !(IsCompleted(c) && IsNotStarted(c)) && !(IsInProgress(c) && IsNotStarted(c))
    ensures !InRange(c) ==> !IsCompleted(c) && !IsInProgress(c) && !IsNotStarted(c)
  {
  }

  /** The three bucket counts add up to the number of courses whose progress
      is in range, so to the number of courses when all are. */
  lemma {:induction false} BucketCounts(xs: seq<EnrolledCourse>)
    ensures |Filter(xs, IsCompleted)| + |Filter(xs, IsInProgress)| + |Filter(xs, IsNotStarted)| == |Filter(xs, InRange)|
    ensures (forall i :: 0 <= i < |xs| ==> InRange(xs[i])) ==>
      |Filter(xs, IsCompleted)| + |Filter(xs, IsInProgress)| + |Filter(xs, IsNotStarted)| == |xs|
    decreases |xs|
  {
    if |xs| > 0 {
      BucketCounts(xs[1..]);
      BucketsPartition(xs[0]);
      if forall i :: 0 <= i < |xs| ==> InRange(xs[i]) {
        assert forall i :: 0 <= i < |xs[1..]| ==> InRange(xs[1..][i]) by {
          forall i | 0 <= i < |xs[1..]| ensures InRange(xs[1..][i]) {
            assert xs[1..][i] == xs[i + 1];
          }
        }
        assert InRange(xs[0]);
      }
    }
  }

  /** `getProgressColor` */
  function ProgressColor(progress: real): (color: string)
    ensures color == "bg-green-500" <==> progress == 100.0
    ensures color == "bg-blue-500" <==> progress != 100.0 && progress >= 50.0
    ensures color == "bg-yellow-500" <==> progress < 50.0
  {
    if progress == 100.0 then "bg-green-500"
    else if progress >= 50.0 then "bg-blue-500"
    else "bg-yellow-500"
  }

  /** "Continue Learning": at most the first two in-progress courses. */
  function ContinueLearning(xs: seq<EnrolledCourse>): (r: seq<EnrolledCourse>)
    ensures |r| == if |Filter(xs, IsInProgress)| < 2 then |Filter(xs, IsInProgress)| else 2
    ensures |r| <= |Filter(xs, IsInProgress)| && r == Filter(xs, IsInProgress)[..|r|]
    ensures |r| == 0 <==> |Filter(xs, IsInProgress)| == 0
    ensures forall c :: c in r ==> c in xs && IsInProgress(c)
  {
    var inProgress := Filter(xs, IsInProgress);
    if |inProgress| <= 2 then inProgress else inProgress[..2]
  }

  /** The section is shown only when some course is in progress. */
  predicate ShowContinueLearning(xs: seq<EnrolledCourse>) {
    |Filter(xs, IsInProgress)| > 0
  }

  /** The section is shown exactly when it has something to list. */
  lemma ContinueLearningShownIff(xs: seq<EnrolledCourse>)
    ensures ShowContinueLearning(xs) <==> |ContinueLearning(xs)| > 0
  {
  }

  /** The per-course controls of the full list. */
  function ButtonLabel(c: EnrolledCourse): (text: string)
    ensures text == "Continue" <==> c.progress > 0.0
    ensures text != "Continue" ==> text == "Start"
  {
    if c.progress > 0.0 then "Continue" else "Start"
  }

  predicate ShowProgressBar(c: EnrolledCourse) { c.progress > 0.0 }
  predicate ShowStar(c: EnrolledCourse) { c.progress == 100.0 }

  /** A course with its bar shown is either completed or in progress (or
      over 100); the star is shown only for a completed course. */
  lemma ControlsFollowBuckets(c: EnrolledCourse)
    ensures ShowStar(c) <==> IsCompleted(c)
    ensures ShowStar(c) ==> ShowProgressBar(c) && ButtonLabel(c) == "Continue"
    ensures IsNotStarted(c) ==> !ShowProgressBar(c) && ButtonLabel(c) == "Start"
    ensures IsInProgress(c) ==> ShowProgressBar(c) && ButtonLabel(c) == "Continue"
  {
  }

  /** The three courses the page loads. */
  const MockEnrolled := [
    EnrolledCourse(1, "JavaScript Fundamentals", "javascript-fundamentals", "Beginner", 35.0,
                   Some("2 hours ago"), 20, 7, "8h 30m"),
    EnrolledCourse(2, "React Essentials", "react-essentials", "Intermediate", 60.0,
                   Some("1 day ago"), 15, 9, "4h 15m"),
    EnrolledCourse(3, "Node.js Backend Development", "nodejs-backend", "Advanced", 10.0,
                   Some("3 days ago"), 25, 2, "15h 45m")
  ]

  /** The page's state. */
  class StudentState {
    var loading: bool
    var enrolledCourses: seq<EnrolledCourse>

    constructor()
      ensures loading && enrolledCourses == []
    {
      loading := true;
      enrolledCourses := [];
    }

    /** `fetchEnrolledCourses`: sets the list, then clears `loading`. */
    method FetchEnrolledCourses()
      modifies this
      ensures enrolledCourses == MockEnrolled && !loading
    {
      enrolledCourses := MockEnrolled;
      loading := false;
    }
  }

  /** Once loaded, all three courses are in progress: nothing is completed
      or unstarted, and "Continue Learning" shows the first two. */
  lemma LoadedBuckets()
    ensures Filter(MockEnrolled, IsInProgress) == MockEnrolled
    ensures Filter(MockEnrolled, IsCompleted) == [] && Filter(MockEnrolled, IsNotStarted) == []
    ensures ContinueLearning(MockEnrolled) == MockEnrolled[..2]
  {
    assert MockEnrolled[1..][1..][1..] == [];
    assert MockEnrolled[1..][1..] == [MockEnrolled[2]];
    assert MockEnrolled[1..] == [MockEnrolled[1], MockEnrolled[2]];
  }

  /** The page's `allowedRoles`. */
  const Guard := [StudentName, DeveloperName]

  /** The page guard is the middleware's '/student' entry: within the
      matcher's '/student' section the page and the middleware agree. */
  lemma GuardMatchesMiddleware(pathname: string, session: Session)
    requires Middleware.InSection(pathname, "/student")
    ensures Guard == Middleware.AllowedFor("/student")
    ensures RequireRole.Render(RequireRole.Authenticated, Some(session), RequireRole.Props(Guard, None, None)) == RequireRole.Children
      <==> Middleware.Handle(pathname, Some(Token(session.role))) == Middleware.Next
  {
    Middleware.MatcherSelectsKey(pathname, 1, Some(Token(session.role)));
    RequireRole.AgreesWithMiddleware(pathname, 1, session, None, None);
  }
}
