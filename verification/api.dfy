/** The CMS client's pure parts (src/lib/api.ts): the base-URL
    normalisation done once at load time, and the request paths built by
    `strapiApi`. The axios instance and its interceptors are not modelled. */
module Api {
  import opened Common
  import CmsTypes

  const DefaultBaseUrl := "http://localhost:1337"

  /** `process.env.NEXT_PUBLIC_API_BASE_URL || 'http://localhost:1337'` */
  function RawBaseUrl(env: Option<string>): (r: string)
    ensures env.Some? && env.value != "" ==> r == env.value
    ensures env.None? || env.value == "" ==> r == DefaultBaseUrl
  {
    if env.Some? && env.value != "" then env.value else DefaultBaseUrl
  }

  /** `raw.replace(/\/$/, '')`: one trailing slash, if any, is removed. */
  function StripTrailingSlash(raw: string): (r: string)
    ensures EndsWith(raw, "/") ==> r + "/" == raw
    ensures !EndsWith(raw, "/") ==> r == raw
  {
    if |raw| > 0 && raw[|raw| - 1] == '/' then raw[..|raw| - 1] else raw
  }

  /** Lines 5-8: strip one trailing slash, then one trailing '/api'. */
  function NormalizeBaseUrl(raw: string): (r: string)
    ensures StartsWith(raw, r)
    ensures |raw| - 5 <= |r| <= |raw|
  {
    var noSlash := StripTrailingSlash(raw);
    if EndsWith(noSlash, "/api") then noSlash[..|noSlash| - 4] else noSlash
  }

  /** `baseURL` as a function of the environment variable. */
  function BaseUrl(env: Option<string>): (b: string)
    ensures StartsWith(RawBaseUrl(env), b) && |RawBaseUrl(env)| - 5 <= |b|
    ensures env.None? || env.value == "" ==> b == DefaultBaseUrl
  {
    PlainBaseUrlKept(DefaultBaseUrl);
    NormalizeBaseUrl(RawBaseUrl(env))
  }

  /** 'X/api' and 'X/api/' both give 'X' ... */
  lemma ApiSuffixRemoved(x: string)
    ensures NormalizeBaseUrl(x + "/api") == x
    ensures NormalizeBaseUrl(x + "/api/") == x
  {
    assert (x + "/api/")[..|x + "/api/"| - 1] == x + "/api";
    assert (x + "/api")[..|x|] == x;
  }

  /** ... but only once: 'X/api/api' gives 'X/api'. */
  lemma ApiSuffixRemovedOnce(x: string)
    ensures NormalizeBaseUrl(x + "/api/api") == x + "/api"
  {
    assert x + "/api/api" == (x + "/api") + "/api";
    ApiSuffixRemoved(x + "/api");
  }

  /** A base URL ending in neither '/' nor '/api' is kept as it is. */
  lemma PlainBaseUrlKept(raw: string)
    requires !EndsWith(raw, "/") && !EndsWith(raw, "/api")
    ensures NormalizeBaseUrl(raw) == raw
  {
  }

  /** Unset or empty, the base URL is the local default. */
  lemma DefaultBase(env: Option<string>)
    requires env.None? || env.value == ""
    ensures BaseUrl(env) == DefaultBaseUrl
  {
    PlainBaseUrlKept(DefaultBaseUrl);
  }

  // ---------------------------------------------------------------------
  // Request paths of `strapiApi`

  const CoursePopulate := "populate[modules][populate][classes][populate]=topics&populate[thumbnail]=*"

  function CoursesPath(): string {
    "/api/courses?" + CoursePopulate
  }

  function CourseBySlugPath(slug: string): string {
    "/api/courses?filters[slug][$eq]=" + slug + "&" + CoursePopulate
  }

  function CourseByIdPath(id: int): string {
    "/api/courses/" + IntToString(id) + "?" + CoursePopulate
  }

  function ModulesByCourseIdPath(courseId: int): string {
    "/api/modules?filters[course][id][$eq]=" + IntToString(courseId) + "&populate[classes][populate]=topics"
  }

  function ClassesByModuleIdPath(moduleId: int): string {
    "/api/classes?filters[module][id][$eq]=" + IntToString(moduleId) + "&populate=topics"
  }

  function ClassByIdPath(id: int): string {
    "/api/classes/" + IntToString(id) + "?populate=topics"
  }

  /** The piece between a known prefix and a known suffix is recovered exactly. */
  lemma Between(prefix: string, x: string, suffix: string)
    ensures (prefix + x + suffix)[|prefix|..|prefix| + |x|] == x
  {
    assert (prefix + x + suffix)[|prefix|..|prefix| + |x|] == (prefix + x)[|prefix|..];
  }

  /** The slug is placed verbatim, without escaping, right after
      'filters[slug][$eq]=': the path determines the slug. */
  lemma SlugVerbatim(slug: string)
    ensures var pre := "/api/courses?filters[slug][$eq]=";
      CourseBySlugPath(slug)[|pre|..|pre| + |slug|] == slug
  {
    Between("/api/courses?filters[slug][$eq]=", slug, "&" + CoursePopulate);
  }

  /** An integer rendered between a fixed prefix and a fixed suffix is
      determined by the resulting string. */
  lemma IdBetween(prefix: string, suffix: string, a: int, b: int)
    requires prefix + IntToString(a) + suffix == prefix + IntToString(b) + suffix
    ensures a == b
  {
    assert |IntToString(a)| == |IntToString(b)|;
    Between(prefix, IntToString(a), suffix);
    Between(prefix, IntToString(b), suffix);
    IntToStringInjective(a, b);
  }

  /** The course id and the module id are placed verbatim into their
      filter: distinct ids give distinct paths. */
  lemma FilterIdsVerbatim(a: int, b: int)
    ensures ModulesByCourseIdPath(a) == ModulesByCourseIdPath(b) ==> a == b
    ensures ClassesByModuleIdPath(a) == ClassesByModuleIdPath(b) ==> a == b
  {
    if ModulesByCourseIdPath(a) == ModulesByCourseIdPath(b) {
      IdBetween("/api/modules?filters[course][id][$eq]=", "&populate[classes][populate]=topics", a, b);
    }
    if ClassesByModuleIdPath(a) == ClassesByModuleIdPath(b) {
      IdBetween("/api/classes?filters[module][id][$eq]=", "&populate=topics", a, b);
    }
  }

  /** Concatenation regroups: a two-piece suffix is one suffix. */
  lemma Regroup(prefix: string, x: string, s1: string, s2: string)
    ensures prefix + x + s1 + s2 == prefix + x + (s1 + s2)
  {
  }

  /** The same for the ids placed in the path of `getCourseById` and
      `getClassById`. */
  lemma PathIdsVerbatim(a: int, b: int)
    ensures CourseByIdPath(a) == CourseByIdPath(b) ==> a == b
    ensures ClassByIdPath(a) == ClassByIdPath(b) ==> a == b
  {
    if CourseByIdPath(a) == CourseByIdPath(b) {
      Regroup("/api/courses/", IntToString(a), "?", CoursePopulate);
      Regroup("/api/courses/", IntToString(b), "?", CoursePopulate);
      IdBetween("/api/courses/", "?" + CoursePopulate, a, b);
    }
    if ClassByIdPath(a) == ClassByIdPath(b) {
      IdBetween("/api/classes/", "?populate=topics", a, b);
    }
  }

  /** `getCourseBySlug`: null iff the list is empty, else its first course
      (wrapped as `data.data` by the source). */
  function GetCourseBySlug(courses: seq<CmsTypes.Course>): (r: Option<CmsTypes.Course>)
    ensures r.None? <==> |courses| == 0
    ensures r.Some? ==> r.value == courses[0]
  {
    if |courses| > 0 then Some(courses[0]) else None
  }
}
