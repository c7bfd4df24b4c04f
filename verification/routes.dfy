/** The route table of the separate `web/` application
    (web/src/lib/routes.ts): fixed paths and the template-string builders
    for parameterised ones. Parameters are placed verbatim (no escaping).
    The section lemmas below state what src/middleware.ts decides on these
    path strings; they do not claim that the `web/` application runs behind
    that middleware. */
module Routes {
  import opened Common
  import opened Claims
  import Middleware

  // Public routes
  const Home := "/"
  const About := "/about"
  const Courses := "/courses"

  // Auth routes
  const SignIn := "/auth/signin"
  const SignUp := "/auth/signup"
  const SignOut := "/auth/signout"

  // Protected routes
  const Dashboard := "/dashboard"
  const Profile := "/profile"
  const Settings := "/settings"

  // Student routes
  const StudentDashboard := "/student/dashboard"
  const StudentCourses := "/student/courses"

  // Social media manager routes
  const SmManagerDashboard := "/sm-manager/dashboard"
  const SmManagerCourses := "/sm-manager/courses"
  const SmManagerStats := "/sm-manager/stats"
  const SmManagerBanners := "/sm-manager/banners"

  // Developer routes
  const DeveloperDashboard := "/developer/dashboard"
  const DeveloperSystem := "/developer/system"
  const DeveloperFlags := "/developer/flags"
  const DeveloperLogs := "/developer/logs"

  // API routes
  const ApiLogin := "/api/auth/login"
  const ApiRegister := "/api/auth/register"
  const ApiMe := "/api/auth/me"
  const ApiCourses := "/api/courses"
  const ApiStats := "/api/stats"

  /** `courseDetail(slug)` */
  function CourseDetail(slug: string): (r: string)
    ensures r == Courses + "/" + slug
    ensures StartsWith(r, "/courses/") && r[|"/courses/"|..] == slug
  {
    assert ("/courses/" + slug)[..9] == "/courses/";
    "/courses/" + slug
  }

  /** Distinct slugs give distinct course pages. */
  lemma CourseDetailInjective(s1: string, s2: string)
    ensures CourseDetail(s1) == CourseDetail(s2) ==> s1 == s2
  {
  }

  /** `student.course(slug)` */
  function StudentCourse(slug: string): string {
    "/student/courses/" + slug
  }

  /** `student.module(courseSlug, moduleId)` */
  function StudentModule(courseSlug: string, moduleId: string): string {
    "/student/courses/" + courseSlug + "/modules/" + moduleId
  }

  /** `student.class(courseSlug, moduleId, classId)` */
  function StudentClass(courseSlug: string, moduleId: string, classId: string): string {
    "/student/courses/" + courseSlug + "/modules/" + moduleId + "/classes/" + classId
  }

  /** The student builders nest: a module lies under its course, a class
      under its module, and the course under the student course list. */
  lemma StudentRoutesNest(c: string, m: string, k: string)
    ensures StudentCourse(c) == StudentCourses + "/" + c
    ensures StudentModule(c, m) == StudentCourse(c) + "/modules/" + m
    ensures StudentClass(c, m, k) == StudentModule(c, m) + "/classes/" + k
  {
  }

  /** The student routes, the manager routes and the developer routes. */
  function StudentRoutes(c: string, m: string, k: string): seq<string> {
    [StudentDashboard, StudentCourses, StudentCourse(c), StudentModule(c, m), StudentClass(c, m, k)]
  }

  const SmManagerRoutes := [SmManagerDashboard, SmManagerCourses, SmManagerStats, SmManagerBanners]
  const DeveloperRoutes := [DeveloperDashboard, DeveloperSystem, DeveloperFlags, DeveloperLogs]

  /** Every student route starts with '/student/', every manager route
      with '/sm-manager/', every developer route with '/developer/'. */
  lemma SectionPrefixes(c: string, m: string, k: string)
    ensures forall r :: r in StudentRoutes(c, m, k) ==> StartsWith(r, "/student/")
    ensures forall r :: r in SmManagerRoutes ==> StartsWith(r, "/sm-manager/")
    ensures forall r :: r in DeveloperRoutes ==> StartsWith(r, "/developer/")
  {
    var p := "/student/";
    StartsWithAppend(p, "courses/" + c);
    assert StudentCourse(c) == p + ("courses/" + c);
    assert StudentModule(c, m) == p + ("courses/" + c + "/modules/" + m);
    StartsWithAppend(p, "courses/" + c + "/modules/" + m);
    assert StudentClass(c, m, k) == p + ("courses/" + c + "/modules/" + m + "/classes/" + k);
    StartsWithAppend(p, "courses/" + c + "/modules/" + m + "/classes/" + k);
  }

  /** The middleware's table matches by plain string prefix, so on its own
      it would file anything under '/developer/' under '/dev' (Developer
      only); but its matcher does not cover them, so its decision on such a
      path is to pass, whatever the token. */
  lemma DeveloperSectionSkipped(r: string, token: Option<Token>)
    requires StartsWith(r, "/developer/")
    ensures Middleware.FindPrefix(Middleware.ProtectedRoutes, r) == Some(3)
    ensures !Middleware.MatcherRuns(r)
    ensures Middleware.Handle(r, token) == Middleware.Next
  {
    assert r[..11] == "/developer/";
    assert r[..4] == "/developer/"[..4];
    assert r[1] == 'd' && r[2] == 'e' && r[4] == 'e';
    assert !Middleware.InSection(r, "/dashboard") by {
      assert r != "/dashboard" && r[..11] != "/dashboard/";
    }
    assert !Middleware.InSection(r, "/dev") by {
      assert r != "/dev" && r[..5] != "/dev/";
    }
    Middleware.MatchIsUnique(r, 3);
  }

  /** The middleware's decision on anything under '/student/': it is in the
      matcher's '/student' section and decided by the table's '/student'
      entry. */
  lemma StudentSectionGuarded(r: string, token: Option<Token>)
    requires StartsWith(r, "/student/")
    ensures Middleware.MatcherRuns(r)
    ensures Middleware.FindPrefix(Middleware.ProtectedRoutes, r) == Some(1)
    ensures Middleware.Handle(r, token) == Middleware.Evaluate(r, token)
  {
    assert Middleware.InSection(r, Middleware.ProtectedRoutes[1].0);
    Middleware.MatcherSelectsKey(r, 1, token);
  }

  /** Nothing under '/sm-manager/' is under '/manager': neither the
      middleware's matcher nor its table covers these path strings. */
  lemma ManagerSectionUnguarded(r: string, token: Option<Token>)
    requires StartsWith(r, "/sm-manager/")
    ensures Middleware.FindPrefix(Middleware.ProtectedRoutes, r).None?
    ensures Middleware.Handle(r, token) == Middleware.Next
  {
    assert r[1] == 's' && r[2] == 'm';
  }

  /** The middleware's decision on every path string of the table: the
      developer and manager strings pass unchecked, the student strings are
      decided by the '/student' entry. */
  lemma SectionsUnderMiddleware(c: string, m: string, k: string, token: Option<Token>)
    ensures forall r :: r in DeveloperRoutes ==> Middleware.Handle(r, token) == Middleware.Next
    ensures forall r :: r in SmManagerRoutes ==> Middleware.Handle(r, token) == Middleware.Next
    ensures forall r :: r in StudentRoutes(c, m, k) ==>
      Middleware.FindPrefix(Middleware.ProtectedRoutes, r) == Some(1) && Middleware.Handle(r, token) == Middleware.Evaluate(r, token)
  {
    SectionPrefixes(c, m, k);
    forall r | r in DeveloperRoutes
      ensures Middleware.Handle(r, token) == Middleware.Next
    {
      DeveloperSectionSkipped(r, token);
    }
    forall r | r in StudentRoutes(c, m, k)
      ensures Middleware.FindPrefix(Middleware.ProtectedRoutes, r) == Some(1) && Middleware.Handle(r, token) == Middleware.Evaluate(r, token)
    {
      StudentSectionGuarded(r, token);
    }
    forall r | r in SmManagerRoutes
      ensures Middleware.Handle(r, token) == Middleware.Next
    {
      ManagerSectionUnguarded(r, token);
    }
  }

  /** `api.course(slug)` */
  function ApiCourse(slug: string): string {
    "/api/courses/" + slug
  }

  /** `api.modules(courseId)` */
  function ApiModules(courseId: string): string {
    "/api/courses/" + courseId + "/modules"
  }

  /** `api.classes(moduleId)` */
  function ApiClasses(moduleId: string): string {
    "/api/modules/" + moduleId + "/classes"
  }

  /** `api.topics(classId)` */
  function ApiTopics(classId: string): string {
    "/api/classes/" + classId + "/topics"
  }

  /** Each API builder places its argument verbatim between a fixed prefix
      and a fixed suffix, so the argument can be read back from the path. */
  lemma ApiArgumentsRecoverable(x: string)
    ensures ApiCourse(x) == ApiCourses + "/" + x
    ensures ApiModules(x)[|"/api/courses/"|..|"/api/courses/"| + |x|] == x
    ensures ApiClasses(x)[|"/api/modules/"|..|"/api/modules/"| + |x|] == x
    ensures ApiTopics(x)[|"/api/classes/"|..|"/api/classes/"| + |x|] == x
    ensures EndsWith(ApiModules(x), "/modules") && EndsWith(ApiClasses(x), "/classes") && EndsWith(ApiTopics(x), "/topics")
  {
    assert ApiModules(x)[|"/api/courses/"|..|"/api/courses/"| + |x|] == ("/api/courses/" + x)[|"/api/courses/"|..];
    assert ApiClasses(x)[|"/api/modules/"|..|"/api/modules/"| + |x|] == ("/api/modules/" + x)[|"/api/modules/"|..];
    assert ApiTopics(x)[|"/api/classes/"|..|"/api/classes/"| + |x|] == ("/api/classes/" + x)[|"/api/classes/"|..];
  }
}
