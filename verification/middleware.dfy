/** The server-side request gate (src/middleware.ts): a fixed table from
    path prefix to allowed role names, and the per-request decision to let
    the request through, send it to the login page, or send it to a role's
    home page with an `error=unauthorized` marker; and the `config.matcher`
    that decides on which paths Next.js invokes it at all. */
module Middleware {
  import opened Common
  import opened Claims

  /** `PROTECTED_ROUTES`, in `Object.keys` order. */
  const ProtectedRoutes: seq<(string, seq<string>)> := [
    ("/dashboard", [NormalUserName, StudentName, SocialMediaManagerName, DeveloperName]),
    ("/student", [StudentName, DeveloperName]),
    ("/manager", [SocialMediaManagerName, DeveloperName]),
    ("/dev", [DeveloperName])
  ]

  const LoginPath := "/login"
  const DashboardPath := "/dashboard"

  /** The outcome of one request. `RedirectToLogin` stands for
      `/login?callbackUrl=<callbackUrl>`; `RedirectUnauthorized` for
      `<path>?error=unauthorized`. */
  datatype Decision =
    | Next
    | RedirectToLogin(callbackUrl: string)
    | RedirectUnauthorized(path: string)

  /** The roles listed for a key of the table. */
  function AllowedFor(key: string): seq<string> {
    if key == "/dashboard" then ProtectedRoutes[0].1
    else if key == "/student" then ProtectedRoutes[1].1
    else if key == "/manager" then ProtectedRoutes[2].1
    else if key == "/dev" then ProtectedRoutes[3].1
    else []
  }

  /** `Object.keys(table).find(route => pathname.startsWith(route))`, over any table. */
  function FindPrefix(table: seq<(string, seq<string>)>, pathname: string): (r: Option<nat>)
    ensures r.Some? ==> r.value < |table| && StartsWith(pathname, table[r.value].0)
    ensures r.Some? ==> forall j :: 0 <= j < r.value ==> !StartsWith(pathname, table[j].0)
    ensures r.None? <==> forall j :: 0 <= j < |table| ==> !StartsWith(pathname, table[j].0)
  {
    if |table| == 0 then None
    else if StartsWith(pathname, table[0].0) then Some(0)
    else
      match FindPrefix(table[1..], pathname)
      case None => None
      case Some(k) => Some(k + 1)
  }

  /** The page each role is sent to when it is refused: the `switch` at lines 45-57. */
  function RoleHome(role: string): (r: string)
    ensures role == StudentName ==> r == "/student"
    ensures role == SocialMediaManagerName ==> r == "/manager"
    ensures role == DeveloperName ==> r == "/dev"
    ensures role != StudentName && role != SocialMediaManagerName && role != DeveloperName ==> r == "/dashboard"
  {
    match RoleOf(role)
    case Student => "/student"
    case SocialMediaManager => "/manager"
    case Developer => "/dev"
    case _ => "/dashboard"
  }

  /** The target of a refusal: the role's home, unless the request already
      starts with it, in which case the dashboard. */
  function UnauthorizedTarget(pathname: string, role: string): (t: string)
    ensures t in [DashboardPath, "/student", "/manager", "/dev"]
    ensures !StartsWith(pathname, RoleHome(role)) ==> t == RoleHome(role)
    ensures StartsWith(pathname, RoleHome(role)) ==> t == DashboardPath
  {
    var home := RoleHome(role);
    if StartsWith(pathname, home) then DashboardPath else home
  }

  /** `middleware(request)`: `token` is what `getToken` returns (None for no
      valid token), consulted only once a prefix matched. */
  function Evaluate(pathname: string, token: Option<Token>): (d: Decision)
    ensures FindPrefix(ProtectedRoutes, pathname).None? ==> d == Next
    ensures FindPrefix(ProtectedRoutes, pathname).Some? && token.None? ==> d == RedirectToLogin(pathname)
    ensures d.RedirectUnauthorized? ==> token.Some? && EffectiveRole(token.value.role) !in AllowedFor(MatchedKey(pathname))
  {
    match FindPrefix(ProtectedRoutes, pathname)
    case None => Next
    case Some(k) =>
      if token.None? then RedirectToLogin(pathname)
      else
        var allowed := ProtectedRoutes[k].1;
        var userRole := EffectiveRole(token.value.role);
        if userRole !in allowed then RedirectUnauthorized(UnauthorizedTarget(pathname, userRole))
        else Next
  }

  /** The key that guards a path ("" when none does). */
  function MatchedKey(pathname: string): string {
    match FindPrefix(ProtectedRoutes, pathname)
    case None => ""
    case Some(k) => ProtectedRoutes[k].0
  }

  // ---------------------------------------------------------------------
  // `config.matcher` (lines 73-80)

  /** The matcher pattern `'<section>/:path*'`: the section's own path or
      any path below `<section>/`. */
  predicate InSection(pathname: string, section: string) {
    pathname == section || StartsWith(pathname, section + "/")
  }

  /** Next.js invokes the middleware only on paths the matcher lists. */
  predicate MatcherRuns(pathname: string) {
    InSection(pathname, "/dashboard") || InSection(pathname, "/student")
    || InSection(pathname, "/manager") || InSection(pathname, "/dev")
  }

  /** A request as the application sees it: the middleware's decision
      where the matcher invokes it, passed through everywhere else. */
  function Handle(pathname: string, token: Option<Token>): (d: Decision)
    ensures !MatcherRuns(pathname) ==> d == Next
    ensures d.RedirectToLogin? ==> token.None? && d.callbackUrl == pathname
    ensures d.RedirectUnauthorized? ==> token.Some? && EffectiveRole(token.value.role) !in AllowedFor(MatchedKey(pathname))
  {
    if MatcherRuns(pathname) then Evaluate(pathname, token) else Next
  }

  // ---------------------------------------------------------------------
  // The table

  /** No key of the table is a prefix of another one. */
  lemma KeysPrefixFree()
    ensures forall i, j :: 0 <= i < |ProtectedRoutes| && 0 <= j < |ProtectedRoutes| && i != j ==>
      !StartsWith(ProtectedRoutes[i].0, ProtectedRoutes[j].0)
  {
    forall i, j | 0 <= i < |ProtectedRoutes| && 0 <= j < |ProtectedRoutes| && i != j
      ensures !StartsWith(ProtectedRoutes[i].0, ProtectedRoutes[j].0)
    {
      var a, b := ProtectedRoutes[i].0, ProtectedRoutes[j].0;
      // the keys differ at index 1 or, for '/dashboard' and '/dev', at index 2
      assert |b| <= |a| ==> a[1] != b[1] || a[2] != b[2];
    }
  }

  /** Hence at most one key matches a path, and `find` returns it whatever
      the key order: the match is the unique key the path starts with. */
  lemma {:induction false} MatchIsUnique(pathname: string, i: nat)
    requires i < |ProtectedRoutes| && StartsWith(pathname, ProtectedRoutes[i].0)
    ensures FindPrefix(ProtectedRoutes, pathname) == Some(i)
    ensures forall j :: 0 <= j < |ProtectedRoutes| && j != i ==> !StartsWith(pathname, ProtectedRoutes[j].0)
    ensures MatchedKey(pathname) == ProtectedRoutes[i].0
  {
    forall j | 0 <= j < |ProtectedRoutes| && j != i
      ensures !StartsWith(pathname, ProtectedRoutes[j].0)
    {
      NoTwoKeysMatch(pathname, i, j);
    }
  }

  lemma NoTwoKeysMatch(pathname: string, i: nat, j: nat)
    requires i < |ProtectedRoutes| && j < |ProtectedRoutes| && i != j
    requires StartsWith(pathname, ProtectedRoutes[i].0)
    ensures !StartsWith(pathname, ProtectedRoutes[j].0)
  {
    KeysPrefixFree();
    CommonPrefix(pathname, ProtectedRoutes[i].0, ProtectedRoutes[j].0);
  }

  /** Two prefixes of one string are prefixes of each other. */
  lemma CommonPrefix(p: string, a: string, b: string)
    requires StartsWith(p, a)
    ensures StartsWith(p, b) ==> StartsWith(a, b) || StartsWith(b, a)
  {
    if |a| <= |b| && StartsWith(p, b) {
      assert b[..|a|] == p[..|a|];
    } else if StartsWith(p, b) {
      assert a[..|b|] == p[..|b|];
    }
  }

  /** `find` does not depend on the key order: any reordering of the table
      matches the same key, and matches none exactly when the table does. */
  lemma FindOrderIndependent(table: seq<(string, seq<string>)>, pathname: string)
    requires multiset(table) == multiset(ProtectedRoutes)
    ensures FindPrefix(table, pathname).None? <==> FindPrefix(ProtectedRoutes, pathname).None?
    ensures FindPrefix(table, pathname).Some? ==>
      table[FindPrefix(table, pathname).value] == ProtectedRoutes[FindPrefix(ProtectedRoutes, pathname).value]
  {
    match FindPrefix(table, pathname)
    case Some(k) =>
      assert table[k] in multiset(ProtectedRoutes);
      var i :| 0 <= i < |ProtectedRoutes| && ProtectedRoutes[i] == table[k];
      MatchIsUnique(pathname, i);
    case None =>
      forall i | 0 <= i < |ProtectedRoutes|
        ensures !StartsWith(pathname, ProtectedRoutes[i].0)
      {
        assert ProtectedRoutes[i] in multiset(table);
      }
  }

  /** The table's role lists are what `AllowedFor` returns for its keys. */
  lemma AllowedForTable(i: nat)
    requires i < |ProtectedRoutes|
    ensures AllowedFor(ProtectedRoutes[i].0) == ProtectedRoutes[i].1
  {
  }

  // ---------------------------------------------------------------------
  // Properties of the decision

  /** A path under none of the four prefixes passes, and the token is not
      read: any two tokens give the same outcome. */
  lemma UnprotectedPassesWithoutToken(pathname: string, t1: Option<Token>, t2: Option<Token>)
    requires !StartsWith(pathname, "/dashboard") && !StartsWith(pathname, "/student")
    requires !StartsWith(pathname, "/manager") && !StartsWith(pathname, "/dev")
    ensures Evaluate(pathname, t1) == Next
    ensures Evaluate(pathname, t1) == Evaluate(pathname, t2)
  {
    assert FindPrefix(ProtectedRoutes, pathname).None?;
  }

  /** A role listed under the matched key passes unchanged; a missing or
      empty role is judged as 'NormalUser'. */
  lemma {:induction false} AllowedRolePasses(pathname: string, i: nat, role: Option<string>)
    requires i < |ProtectedRoutes| && StartsWith(pathname, ProtectedRoutes[i].0)
    ensures Evaluate(pathname, Some(Token(role))) == Next <==> EffectiveRole(role) in ProtectedRoutes[i].1
    ensures !HasRoleClaim(role) ==>
      (Evaluate(pathname, Some(Token(role))) == Evaluate(pathname, Some(Token(Some(NormalUserName)))))
  {
    MatchIsUnique(pathname, i);
  }

  /** The refusal target of each role, and `error=unauthorized` is implied by
      the constructor: the role's home unless the path already starts with
      it, then '/dashboard'. */
  lemma {:induction false} DeniedTarget(pathname: string, role: Option<string>)
    requires Evaluate(pathname, Some(Token(role))).RedirectUnauthorized?
    ensures var target := Evaluate(pathname, Some(Token(role))).path;
      var home := RoleHome(EffectiveRole(role));
      && (StartsWith(pathname, home) ==> target == "/dashboard")
      && (!StartsWith(pathname, home) ==> target == home)
      && target in {"/student", "/manager", "/dev", "/dashboard"}
  {
  }

  /** Student at '/dev/x' is sent to '/student', not to '/dashboard'. */
  lemma StudentAtDev()
    ensures Evaluate("/dev/x", Some(Token(Some(StudentName)))) == RedirectUnauthorized("/student")
  {
    MatchIsUnique("/dev/x", 3);
    assert !StartsWith("/dev/x", "/student");
  }

  /** No redirect loop for the four known roles: the refusal target of a
      request is a path the same token is let into. */
  lemma {:induction false} KnownRoleTargetIsAdmitted(pathname: string, role: Option<string>)
    requires IsKnownName(EffectiveRole(role))
    requires Evaluate(pathname, Some(Token(role))).RedirectUnauthorized?
    ensures Evaluate(Evaluate(pathname, Some(Token(role))).path, Some(Token(role))) == Next
  {
    var target := Evaluate(pathname, Some(Token(role))).path;
    var r := EffectiveRole(role);
    if target == "/dashboard" {
      MatchIsUnique(target, 0);
    } else if target == "/student" {
      MatchIsUnique(target, 1);
      assert r == StudentName;
    } else if target == "/manager" {
      MatchIsUnique(target, 2);
      assert r == SocialMediaManagerName;
    } else {
      // Only a Developer is sent to '/dev', and a Developer is never refused.
      assert false;
    }
  }

  /** For a role string outside the four names, a request under '/dashboard'
      is sent to '/dashboard' again, and so is that redirect: the loop guard
      does not stop a self-redirect. */
  lemma {:induction false} UnknownRoleLoopsAtDashboard(pathname: string, role: string)
    requires StartsWith(pathname, "/dashboard")
    requires role != "" && !IsKnownName(role)
    ensures Evaluate(pathname, Some(Token(Some(role)))) == RedirectUnauthorized("/dashboard")
    ensures Evaluate("/dashboard", Some(Token(Some(role)))) == RedirectUnauthorized("/dashboard")
  {
    MatchIsUnique(pathname, 0);
    MatchIsUnique("/dashboard", 0);
  }

  /** 'Developer' is in every list, so a Developer token is never redirected. */
  lemma DeveloperNeverRedirected(pathname: string)
    ensures Evaluate(pathname, Some(Token(Some(DeveloperName)))) == Next
  {
  }

  // ---------------------------------------------------------------------
  // The matcher against the table

  /** Inside a matcher section the table matches that very section's key,
      so the application's answer is the middleware's. */
  lemma {:induction false} MatcherSelectsKey(pathname: string, i: nat, token: Option<Token>)
    requires i < |ProtectedRoutes| && InSection(pathname, ProtectedRoutes[i].0)
    ensures StartsWith(pathname, ProtectedRoutes[i].0)
    ensures FindPrefix(ProtectedRoutes, pathname) == Some(i)
    ensures Handle(pathname, token) == Evaluate(pathname, token)
  {
    var key := ProtectedRoutes[i].0;
    if pathname != key {
      assert pathname[..|key|] == pathname[..|key| + 1][..|key|];
      assert (key + "/")[..|key|] == key;
    }
    MatchIsUnique(pathname, i);
  }

  /** The matcher only narrows the table: every path it lets through has a
      key, and outside it nothing is redirected, whatever the token. */
  lemma {:induction false} MatcherWithinTable(pathname: string, token: Option<Token>)
    ensures MatcherRuns(pathname) ==> FindPrefix(ProtectedRoutes, pathname).Some?
    ensures Handle(pathname, token) != Next ==> Handle(pathname, token) == Evaluate(pathname, token) && MatcherRuns(pathname)
  {
    if InSection(pathname, "/dashboard") {
      MatcherSelectsKey(pathname, 0, token);
    } else if InSection(pathname, "/student") {
      MatcherSelectsKey(pathname, 1, token);
    } else if InSection(pathname, "/manager") {
      MatcherSelectsKey(pathname, 2, token);
    } else if InSection(pathname, "/dev") {
      MatcherSelectsKey(pathname, 3, token);
    }
  }
}
