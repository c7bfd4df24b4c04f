/** The developer's page (src/app/dev/page.tsx): the service-status and
    feature-flag counts, the status and environment colour maps, the loaded
    state, the page's role guard and its links to the other dashboards.
    Status and environment are strings, as at run time; the declared
    values are singled out by predicates. */
module DevPage {
  import opened Common
  import opened Claims
  import Middleware
  import RequireRole

  datatype SystemStatus = SystemStatus(service: string, status: string, uptime: string, lastCheck: string, description: string)
  datatype FeatureFlag = FeatureFlag(name: string, key: string, enabled: bool, description: string, environment: string)

  predicate IsHealthy(s: SystemStatus) { s.status == "healthy" }
  predicate IsWarning(s: SystemStatus) { s.status == "warning" }
  predicate IsError(s: SystemStatus) { s.status == "error" }
  /** One of the three declared status values. */
  predicate KnownStatus(s: SystemStatus) { IsHealthy(s) || IsWarning(s) || IsError(s) }
  predicate IsEnabled(f: FeatureFlag) { f.enabled }

  /** The three status counts cover exactly the services with a declared
      status, so all services when every status is declared. */
  lemma {:induction false} StatusCounts(xs: seq<SystemStatus>)
    ensures |Filter(xs, IsHealthy)| + |Filter(xs, IsWarning)| + |Filter(xs, IsError)| == |Filter(xs, KnownStatus)|
    ensures (forall i :: 0 <= i < |xs| ==> KnownStatus(xs[i])) ==>
      |Filter(xs, IsHealthy)| + |Filter(xs, IsWarning)| + |Filter(xs, IsError)| == |xs|
    decreases |xs|
  {
    if |xs| > 0 {
      StatusCounts(xs[1..]);
      if forall i :: 0 <= i < |xs| ==> KnownStatus(xs[i]) {
        assert forall i :: 0 <= i < |xs[1..]| ==> KnownStatus(xs[1..][i]) by {
          forall i | 0 <= i < |xs[1..]| ensures KnownStatus(xs[1..][i]) {
            assert xs[1..][i] == xs[i + 1];
          }
        }
        assert KnownStatus(xs[0]);
      }
    }
  }

  /** The enabled count never exceeds the flag count, and equals it iff
      every flag is enabled. */
  lemma {:induction false} EnabledFlagsBound(flags: seq<FeatureFlag>)
    ensures |Filter(flags, IsEnabled)| <= |flags|
    ensures |Filter(flags, IsEnabled)| == |flags| <==> forall i :: 0 <= i < |flags| ==> flags[i].enabled
    decreases |flags|
  {
    if |flags| > 0 {
      EnabledFlagsBound(flags[1..]);
      assert forall i :: 1 <= i < |flags| ==> flags[i] == flags[1..][i - 1];
    }
  }

  /** `getStatusColor` */
  function StatusColor(status: string): (color: string)
    ensures status == "healthy" ==> color == "text-green-600 bg-green-50"
    ensures status == "warning" ==> color == "text-yellow-600 bg-yellow-50"
    ensures status == "error" ==> color == "text-red-600 bg-red-50"
    ensures status != "healthy" && status != "warning" && status != "error" ==> color == "text-gray-600 bg-gray-50"
  {
    if status == "healthy" then "text-green-600 bg-green-50"
    else if status == "warning" then "text-yellow-600 bg-yellow-50"
    else if status == "error" then "text-red-600 bg-red-50"
    else "text-gray-600 bg-gray-50"
  }

  /** `getEnvironmentColor` */
  function EnvironmentColor(env: string): (color: string)
    ensures env == "production" ==> color == "bg-green-100 text-green-800"
    ensures env == "staging" ==> color == "bg-yellow-100 text-yellow-800"
    ensures env == "development" ==> color == "bg-blue-100 text-blue-800"
    ensures env != "production" && env != "staging" && env != "development" ==> color == "bg-gray-100 text-gray-800"
  {
    if env == "production" then "bg-green-100 text-green-800"
    else if env == "staging" then "bg-yellow-100 text-yellow-800"
    else if env == "development" then "bg-blue-100 text-blue-800"
    else "bg-gray-100 text-gray-800"
  }

  /** Each declared value has a colour of its own, distinct from the others
      and from the gray default: the colour tells the value apart. */
  lemma ColoursDistinguish(s1: string, s2: string, e1: string, e2: string)
    requires s1 in ["healthy", "warning", "error"] && e1 in ["production", "staging", "development"]
    ensures StatusColor(s1) == StatusColor(s2) <==> s1 == s2
    ensures EnvironmentColor(e1) == EnvironmentColor(e2) <==> e1 == e2
  {
  }

  const MockStatus := [
    SystemStatus("Frontend (Next.js)", "healthy", "99.9%", "2 minutes ago", "Web application running smoothly"),
    SystemStatus("Backend API (Strapi)", "healthy", "99.8%", "1 minute ago", "Content management system operational"),
    SystemStatus("Database (PostgreSQL)", "healthy", "99.95%", "30 seconds ago", "Database performance optimal"),
    SystemStatus("Authentication (NextAuth)", "warning", "98.5%", "5 minutes ago", "Increased response times detected"),
    SystemStatus("File Storage", "healthy", "99.7%", "1 minute ago", "Media files accessible")
  ]

  const MockFlags := [
    FeatureFlag("New Course Player", "new_course_player", true, "Enhanced video player with better controls", "development"),
    FeatureFlag("AI Course Recommendations", "ai_recommendations", false, "Machine learning-based course suggestions", "development"),
    FeatureFlag("Advanced Analytics", "advanced_analytics", true, "Detailed learning progress tracking", "staging"),
    FeatureFlag("Social Features", "social_features", false, "Student discussion forums and peer interaction", "development"),
    FeatureFlag("Mobile App API", "mobile_api", true, "REST API endpoints for mobile application", "production")
  ]

  /** The page's state. */
  class DevState {
    var systemStatus: seq<SystemStatus>
    var featureFlags: seq<FeatureFlag>
    var loading: bool

    constructor()
      ensures systemStatus == [] && featureFlags == [] && loading
    {
      systemStatus := [];
      featureFlags := [];
      loading := true;
    }

    /** `fetchSystemData`: both lists, then `loading` cleared. */
    method FetchSystemData()
      modifies this
      ensures systemStatus == MockStatus && featureFlags == MockFlags && !loading
    {
      systemStatus := MockStatus;
      featureFlags := MockFlags;
      loading := false;
    }
  }

  /** Once loaded: 4 healthy, 1 warning, 0 error services; 3 of 5 flags on. */
  lemma LoadedCounts()
    ensures |Filter(MockStatus, IsHealthy)| == 4 && |Filter(MockStatus, IsWarning)| == 1 && |Filter(MockStatus, IsError)| == 0
    ensures |Filter(MockFlags, IsEnabled)| == 3
  {
    var s := MockStatus;
    assert s[1..][1..][1..][1..][1..] == [];
    assert s[1..][1..][1..][1..] == [s[4]];
    assert s[1..][1..][1..] == [s[3], s[4]];
    assert s[1..][1..] == [s[2], s[3], s[4]];
    assert s[1..] == [s[1], s[2], s[3], s[4]];
    var f := MockFlags;
    assert f[1..][1..][1..][1..][1..] == [];
    assert f[1..][1..][1..][1..] == [f[4]];
    assert f[1..][1..][1..] == [f[3], f[4]];
    assert f[1..][1..] == [f[2], f[3], f[4]];
    assert f[1..] == [f[1], f[2], f[3], f[4]];
  }

  /** The page's `allowedRoles`. */
  const Guard := [DeveloperName]

  /** The dashboards the page links to. */
  const Links := ["/student", "/manager"]

  /** The page guard is the middleware's '/dev' entry (within the matcher's
      '/dev' section the page and the middleware agree), and both linked
      dashboards let a Developer through. */
  lemma GuardMatchesMiddleware(pathname: string, session: Session)
    requires Middleware.InSection(pathname, "/dev")
    ensures Guard == Middleware.AllowedFor("/dev")
    ensures RequireRole.Render(RequireRole.Authenticated, Some(session), RequireRole.Props(Guard, None, None)) == RequireRole.Children
      <==> Middleware.Handle(pathname, Some(Token(session.role))) == Middleware.Next
    ensures forall link :: link in Links ==> Middleware.Evaluate(link, Some(Token(Some(DeveloperName)))) == Middleware.Next
  {
    Middleware.MatcherSelectsKey(pathname, 3, Some(Token(session.role)));
    RequireRole.AgreesWithMiddleware(pathname, 3, session, None, None);
    Middleware.DeveloperNeverRedirected("/student");
    Middleware.DeveloperNeverRedirected("/manager");
  }
}
