/** The manager's analytics page (src/app/manager/page.tsx): the summary
    figures computed from the course list, the completion colour, the rating
    stars, the "popular courses" list (which sorts the page's course array
    in place), and the page's role guard. */
module ManagerPage {
  import opened Common
  import opened Claims
  import Middleware
  import RequireRole
  import Sorting

  datatype CourseAnalytics = CourseAnalytics(
    id: int, title: string, slug: string, level: string, enrollments: int,
    completionRate: real, avgRating: real, totalViews: int, createdAt: string)

  /** The summary; `avgCompletionRate` is None where the source computes
      `Math.round(NaN)` (an empty list). */
  datatype ManagerStats = ManagerStats(totalCourses: int, totalStudents: int, avgCompletionRate: Option<int>, totalViews: int)

  const InitialStats := ManagerStats(0, 0, Some(0), 0)

  /** `xs.reduce((sum, x) => sum + f(x), 0)` over integer fields. */
  function SumBy<T>(xs: seq<T>, f: T -> int): int {
    if |xs| == 0 then 0 else SumBy(xs[..|xs| - 1], f) + f(xs[|xs| - 1])
  }

  /** The same sum over the (real) completion rates. */
  function SumRates(xs: seq<CourseAnalytics>): real {
    if |xs| == 0 then 0.0 else SumRates(xs[..|xs| - 1]) + xs[|xs| - 1].completionRate
  }

  /** The sum splits over concatenation: it does not depend on how the list
      is cut. */
  lemma {:induction false} SumByAppend<T>(xs: seq<T>, ys: seq<T>, f: T -> int)
    ensures SumBy(xs + ys, f) == SumBy(xs, f) + SumBy(ys, f)
    decreases |ys|
  {
    if |ys| == 0 {
      assert xs + ys == xs;
    } else {
      assert (xs + ys)[..|xs + ys| - 1] == xs + ys[..|ys| - 1];
      assert (xs + ys)[|xs + ys| - 1] == ys[|ys| - 1];
      SumByAppend(xs, ys[..|ys| - 1], f);
    }
  }

  /** Non-negative fields give a sum bounded below by each term. */
  lemma {:induction false} SumByBounds<T>(xs: seq<T>, f: T -> int)
    requires forall i :: 0 <= i < |xs| ==> f(xs[i]) >= 0
    ensures SumBy(xs, f) >= 0
    ensures forall i :: 0 <= i < |xs| ==> f(xs[i]) <= SumBy(xs, f)
    decreases |xs|
  {
    if |xs| > 0 {
      var init := xs[..|xs| - 1];
      assert forall i :: 0 <= i < |init| ==> init[i] == xs[i];
      SumByBounds(init, f);
    }
  }

  /** Completion rates in [0, 100] sum to at most 100 per course. */
  lemma {:induction false} SumRatesBounds(xs: seq<CourseAnalytics>)
    requires forall i :: 0 <= i < |xs| ==> 0.0 <= xs[i].completionRate <= 100.0
    ensures 0.0 <= SumRates(xs) <= 100.0 * |xs| as real
    decreases |xs|
  {
    if |xs| > 0 {
      var init := xs[..|xs| - 1];
      assert forall i :: 0 <= i < |init| ==> init[i] == xs[i];
      SumRatesBounds(init);
    }
  }

  /** `Math.round(x)`: the nearest integer, halves rounded up. */
  function Round(x: real): (n: int)
    ensures x - 0.5 < n as real <= x + 0.5
  {
    (x + 0.5).Floor
  }

  /** `Math.round(sum / length)`, undefined for an empty list. */
  function AvgCompletion(xs: seq<CourseAnalytics>): (r: Option<int>)
    ensures r.None? <==> |xs| == 0
    ensures |xs| > 0 ==> r == Some(Round(SumRates(xs) / |xs| as real))
  {
    if |xs| == 0 then None else Some(Round(SumRates(xs) / |xs| as real))
  }

  /** With every rate in [0, 100], the rounded average is in [0, 100] too. */
  lemma AvgCompletionBounds(xs: seq<CourseAnalytics>)
    requires |xs| > 0
    requires forall i :: 0 <= i < |xs| ==> 0.0 <= xs[i].completionRate <= 100.0
    ensures 0 <= AvgCompletion(xs).value <= 100
  {
    SumRatesBounds(xs);
    var n := |xs| as real;
    var avg := SumRates(xs) / n;
    assert avg * n == SumRates(xs);
    assert 0.0 <= avg <= 100.0;
  }

  function Enrollments(c: CourseAnalytics): int { c.enrollments }
  function Views(c: CourseAnalytics): int { c.totalViews }

  /** Lines 105-114: the summary computed from the list. */
  function ComputeStats(xs: seq<CourseAnalytics>): (s: ManagerStats)
    ensures s.totalCourses == |xs|
    ensures s.avgCompletionRate.None? <==> |xs| == 0
    ensures s.avgCompletionRate == AvgCompletion(xs)
    ensures s.totalStudents == SumBy(xs, Enrollments) && s.totalViews == SumBy(xs, Views)
  {
    ManagerStats(|xs|, SumBy(xs, Enrollments), AvgCompletion(xs), SumBy(xs, Views))
  }

  /** With non-negative counts, the student total is at least each course's
      enrollments and the view total at least each course's views. */
  lemma StatsBoundEachCourse(xs: seq<CourseAnalytics>)
    requires forall i :: 0 <= i < |xs| ==> xs[i].enrollments >= 0 && xs[i].totalViews >= 0
    ensures forall i :: 0 <= i < |xs| ==> xs[i].enrollments <= ComputeStats(xs).totalStudents
    ensures forall i :: 0 <= i < |xs| ==> xs[i].totalViews <= ComputeStats(xs).totalViews
  {
    SumByBounds(xs, Enrollments);
    SumByBounds(xs, Views);
  }

  /** `getCompletionColor` */
  function CompletionColor(rate: real): (color: string)
    ensures color == "text-green-600" <==> rate >= 80.0
    ensures color == "text-yellow-600" <==> 60.0 <= rate < 80.0
    ensures color == "text-red-600" <==> rate < 60.0
  {
    if rate >= 80.0 then "text-green-600"
    else if rate >= 60.0 then "text-yellow-600"
    else "text-red-600"
  }

  /** `getRatingStars`: five stars, star i filled iff i < floor(rating). */
  function Stars(rating: real): (stars: seq<bool>)
    ensures |stars| == 5
    ensures forall i :: 0 <= i < 5 ==> (stars[i] <==> i < rating.Floor)
  {
    seq(5, i requires 0 <= i < 5 => i < rating.Floor)
  }

  /** The filled stars come first, and for a rating in [0, 5] exactly
      floor(rating) of them are filled. */
  lemma StarsFilledPrefix(rating: real)
    ensures forall i, j :: 0 <= i < j < 5 && Stars(rating)[j] ==> Stars(rating)[i]
    ensures 0.0 <= rating <= 5.0 ==>
      (0 <= rating.Floor <= 5 && Stars(rating) == seq(rating.Floor, _ => true) + seq(5 - rating.Floor, _ => false))
  {
    if 0.0 <= rating <= 5.0 {
      var k := rating.Floor;
      assert 0 <= k <= 5;
      var expected := seq(k, _ => true) + seq(5 - k, _ => false);
      assert forall i :: 0 <= i < 5 ==> Stars(rating)[i] == expected[i];
    }
  }

  /** The four courses the page loads. */
  const MockCourses := [
    CourseAnalytics(1, "JavaScript Fundamentals", "javascript-fundamentals", "Beginner", 245, 78.0, 4.6, 1250, "2024-01-15"),
    CourseAnalytics(2, "React Essentials", "react-essentials", "Intermediate", 189, 65.0, 4.8, 980, "2024-02-10"),
    CourseAnalytics(3, "Node.js Backend Development", "nodejs-backend", "Advanced", 142, 52.0, 4.7, 750, "2024-03-05"),
    CourseAnalytics(4, "Python for Beginners", "python-beginners", "Beginner", 298, 82.0, 4.5, 1450, "2024-01-20")
  ]

  /** The figures the page shows once loaded: 4 courses, 874 students, a
      rounded average completion of 69 (277 / 4 = 69.25) and 4430 views. */
  lemma LoadedStats()
    ensures ComputeStats(MockCourses) == ManagerStats(4, 874, Some(69), 4430)
  {
    var xs := MockCourses;
    var p1, p2, p3 := xs[..1], xs[..2], xs[..3];
    assert p1[..0] == [] && p2[..1] == p1 && p3[..2] == p2 && xs[..3] == p3;
    assert SumRates(p1) == 78.0 && SumBy(p1, Enrollments) == 245 && SumBy(p1, Views) == 1250;
    assert SumRates(p2) == 143.0 && SumBy(p2, Enrollments) == 434 && SumBy(p2, Views) == 2230;
    assert SumRates(p3) == 195.0 && SumBy(p3, Enrollments) == 576 && SumBy(p3, Views) == 2980;
    assert SumRates(xs) == 277.0 && SumBy(xs, Enrollments) == 874 && SumBy(xs, Views) == 4430;
    assert Round(277.0 / 4.0) == 69;
  }

  /** The ordering key of `(a, b) => b.enrollments - a.enrollments`. */
  function ByEnrollmentsDesc(c: CourseAnalytics): int { -c.enrollments }

  /** The page's state; `courses` is the array the page holds. */
  class ManagerState {
    var loading: bool
    var courses: array<CourseAnalytics>
    var stats: ManagerStats

    constructor()
      ensures loading && courses.Length == 0 && stats == InitialStats
    {
      loading := true;
      courses := new CourseAnalytics[0];
      stats := InitialStats;
    }

    /** The effect: store the course list, compute the summary from it,
        clear `loading`. */
    method FetchData()
      modifies this
      ensures fresh(courses) && courses[..] == MockCourses
      ensures stats == ComputeStats(MockCourses) && !loading
    {
      courses := new CourseAnalytics[|MockCourses|](i requires 0 <= i < |MockCourses| => MockCourses[i]);
      stats := ComputeStats(MockCourses);
      loading := false;
    }

    /** "Popular courses": the page's own array is sorted in place by
        descending enrollments, and its first three entries are shown. */
    method PopularCourses() returns (top: seq<CourseAnalytics>)
      modifies courses
      ensures multiset(courses[..]) == old(multiset(courses[..]))
      ensures forall i, j :: 0 <= i < j < courses.Length ==> courses[i].enrollments >= courses[j].enrollments
      ensures |top| == if courses.Length < 3 then courses.Length else 3
      ensures top == courses[..|top|]
      ensures forall i, j :: 0 <= i < |top| <= j < courses.Length ==> courses[j].enrollments <= top[i].enrollments
    {
      Sorting.SortByKey(courses, ByEnrollmentsDesc);
      assert forall i, j :: 0 <= i < j < courses.Length ==> ByEnrollmentsDesc(courses[i]) <= ByEnrollmentsDesc(courses[j]) by {
        assert Sorting.SortedBy(courses[..], ByEnrollmentsDesc);
      }
      if courses.Length < 3 {
        top := courses[..];
      } else {
        top := courses[..3];
      }
    }
  }

  /** The page's `allowedRoles`. */
  const Guard := [SocialMediaManagerName, DeveloperName]

  /** The page guard is the middleware's '/manager' entry: within the
      matcher's '/manager' section the page and the middleware agree. */
  lemma GuardMatchesMiddleware(pathname: string, session: Session)
    requires Middleware.InSection(pathname, "/manager")
    ensures Guard == Middleware.AllowedFor("/manager")
    ensures RequireRole.Render(RequireRole.Authenticated, Some(session), RequireRole.Props(Guard, None, None)) == RequireRole.Children
      <==> Middleware.Handle(pathname, Some(Token(session.role))) == Middleware.Next
  {
    Middleware.MatcherSelectsKey(pathname, 2, Some(Token(session.role)));
    RequireRole.AgreesWithMiddleware(pathname, 2, session, None, None);
  }
}
