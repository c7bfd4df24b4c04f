/** The general dashboard (src/app/dashboard/page.tsx): the data loaded
    once per session role, the quick-action links offered to each role, and
    the page's role guard. Each `fetch` is a parameter: what it ended with. */
module DashboardPage {
  import opened Common
  import opened Claims
  import Middleware
  import RequireRole

  datatype DashCourse = DashCourse(id: int, title: string, slug: string, level: string)

  datatype Stats = Stats(totalCourses: int, enrolledCourses: int, completedCourses: int, totalStudyTime: string)

  const InitialStats := Stats(0, 0, 0, "0h")

  /** The two courses put into "continue watching" for a Student. */
  const ContinueWatchingMock := [
    DashCourse(1, "JavaScript Fundamentals", "javascript-fundamentals", "Beginner"),
    DashCourse(2, "React Essentials", "react-essentials", "Intermediate")
  ]

  /** How one `fetch` (with its `json()`) ended: it threw, answered with a
      non-ok status, or answered ok with a body. */
  datatype Fetched<T> = Threw | NotOk | Ok(body: T)

  /** The page's state. */
  class DashboardState {
    var loading: bool
    var recentCourses: seq<DashCourse>
    var continueWatching: seq<DashCourse>
    var stats: Stats

    constructor()
      ensures loading && recentCourses == [] && continueWatching == [] && stats == InitialStats
    {
      loading := true;
      recentCourses := [];
      continueWatching := [];
      stats := InitialStats;
    }

    /** `fetchData`: the recent courses, then the stats, then (for a
        Student) the continue-watching list; a throw skips every later step;
        `loading` is cleared in `finally`. `role` is `session?.role`. */
    method FetchData(role: Option<string>, courses: Fetched<Option<seq<DashCourse>>>, statsAnswer: Fetched<Stats>)
      modifies this
      ensures !loading
      ensures recentCourses == (if courses.Ok? then courses.body.GetOr([]) else old(recentCourses))
      ensures stats == (if courses.Threw? || !statsAnswer.Ok? then old(stats) else statsAnswer.body)
      ensures continueWatching ==
        (if !courses.Threw? && !statsAnswer.Threw? && role == Some(StudentName) then ContinueWatchingMock
         else old(continueWatching))
    {
      if courses.Threw? {
        loading := false;
        return;
      }
      if courses.Ok? {
        recentCourses := courses.body.GetOr([]);
      }
      if statsAnswer.Threw? {
        loading := false;
        return;
      }
      if statsAnswer.Ok? {
        stats := statsAnswer.body;
      }
      if role == Some(StudentName) {
        continueWatching := ContinueWatchingMock;
      }
      loading := false;
    }
  }

  /** `getRoleSpecificActions`: the links offered, by effective role. */
  function QuickActions(role: Option<string>): (links: seq<string>)
    ensures EffectiveRole(role) == StudentName ==> links == ["/student", "/courses"]
    ensures EffectiveRole(role) == SocialMediaManagerName ==> links == ["/manager", "/courses"]
    ensures EffectiveRole(role) == DeveloperName ==> links == ["/dev", "/student", "/manager"]
    ensures !IsKnownName(EffectiveRole(role)) || EffectiveRole(role) == NormalUserName ==> links == ["/courses"]
  {
    var r := EffectiveRole(role);
    if r == StudentName then ["/student", "/courses"]
    else if r == SocialMediaManagerName then ["/manager", "/courses"]
    else if r == DeveloperName then ["/dev", "/student", "/manager"]
    else ["/courses"]
  }

  /** Every quick action offered to a role is let through by the middleware
      for a token carrying that same role: no link leads to a redirect. */
  lemma QuickActionsAdmitted(role: Option<string>)
    ensures forall link :: link in QuickActions(role) ==> Middleware.Evaluate(link, Some(Token(role))) == Middleware.Next
  {
    var r := EffectiveRole(role);
    assert "/courses"[1] == 'c';
    Middleware.UnprotectedPassesWithoutToken("/courses", Some(Token(role)), None);
    if r == StudentName {
      Middleware.AllowedRolePasses("/student", 1, role);
    } else if r == SocialMediaManagerName {
      Middleware.AllowedRolePasses("/manager", 2, role);
    } else if r == DeveloperName {
      Middleware.AllowedRolePasses("/dev", 3, role);
      Middleware.AllowedRolePasses("/student", 1, role);
      Middleware.AllowedRolePasses("/manager", 2, role);
    }
  }

  /** The extra stat cards and the continue-watching panel render only when
      the session role is exactly 'Student'. */
  predicate ShowStudentPanels(role: Option<string>) {
    role == Some(StudentName)
  }

  /** The Student panels appear exactly for the role whose first quick
      action is the student dashboard. */
  lemma StudentPanelsMatchQuickActions(role: Option<string>)
    ensures ShowStudentPanels(role) <==> QuickActions(role)[0] == "/student"
  {
  }

  /** The page's `allowedRoles`. */
  const Guard := [NormalUserName, StudentName, SocialMediaManagerName, DeveloperName]

  /** The page guard is the middleware's '/dashboard' entry, so within the
      matcher's '/dashboard' section the page renders its content exactly
      when the middleware lets the request through. */
  lemma GuardMatchesMiddleware(pathname: string, session: Session)
    requires Middleware.InSection(pathname, "/dashboard")
    ensures Guard == Middleware.AllowedFor("/dashboard")
    ensures RequireRole.Render(RequireRole.Authenticated, Some(session), RequireRole.Props(Guard, None, None)) == RequireRole.Children
      <==> Middleware.Handle(pathname, Some(Token(session.role))) == Middleware.Next
  {
    Middleware.MatcherSelectsKey(pathname, 0, Some(Token(session.role)));
    RequireRole.AgreesWithMiddleware(pathname, 0, session, None, None);
  }
}
