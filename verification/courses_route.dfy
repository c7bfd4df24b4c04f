/** The course listing route handler (src/app/api/courses/route.ts): builds
    one CMS endpoint from the optional `slug` query parameter, and turns the
    CMS answer into the JSON response. The CMS call is a parameter: the
    handler is given the function that answers each endpoint. */
module CoursesRoute {
  import opened Common
  import CmsTypes
  import Api

  const Populate := "populate[modules][populate][classes][populate]=topics"

  /** The CMS body: `{data: [...], meta}`; `meta` is passed through untouched. */
  datatype UpstreamBody = UpstreamBody(data: seq<CmsTypes.Course>, meta: Option<int>)

  /** What `fetcher.get(endpoint)` gives the handler: a body, or a rejection
      carrying the HTTP status of the error that reaches the `catch` block,
      if that error has a response. `ServerRejection` below gives what the
      client's response interceptor turns a CMS rejection into. */
  datatype Upstream = Fetched(body: UpstreamBody) | Rejected(status: Option<int>)

  /** The response interceptor of src/lib/fetcher.ts as it runs in this
      server-side handler: it has no `typeof window` guard, so on a 401 its
      `localStorage` access throws, and the error the handler catches has no
      response. Every other answer passes through unchanged. */
  function ServerRejection(u: Upstream): (r: Upstream)
    ensures u == Rejected(Some(401)) ==> r == Rejected(None)
    ensures u != Rejected(Some(401)) ==> r == u
  {
    if u == Rejected(Some(401)) then Rejected(None) else u
  }

  datatype ResponseBody =
    | OneCourse(course: CmsTypes.Course)
    | PassThrough(upstream: UpstreamBody)
    | ErrorMessage(error: string)

  datatype JsonResponse = JsonResponse(status: int, body: ResponseBody)

  /** `if (slug)`: the parameter is present and non-empty. */
  predicate HasSlug(slug: Option<string>) {
    slug.Some? && slug.value != ""
  }

  /** The endpoint string the handler builds. */
  function Endpoint(slug: Option<string>): (e: string)
    ensures HasSlug(slug) ==> e == "/api/courses?filters[slug][$eq]=" + slug.value + "&" + Populate + "&populate[thumbnail]=*"
    ensures !HasSlug(slug) ==> e == "/api/courses?" + Populate + "&populate[thumbnail]=*"
  {
    var base := if HasSlug(slug) then "/api/courses?filters[slug][$eq]=" + slug.value + "&" + Populate
                else "/api/courses?" + Populate;
    base + "&populate[thumbnail]=*"
  }

  /** The route asks the CMS for the same relative path as `strapiApi`: the
      slug query of `getCourseBySlug`, or the listing of `getCourses`. */
  lemma EndpointMatchesClient(slug: Option<string>)
    ensures HasSlug(slug) ==> Endpoint(slug) == Api.CourseBySlugPath(slug.value)
    ensures !HasSlug(slug) ==> Endpoint(slug) == Api.CoursesPath()
  {
    var thumb := "&populate[thumbnail]=*";
    assert Api.CoursePopulate == Populate + thumb;
    if HasSlug(slug) {
      var head := "/api/courses?filters[slug][$eq]=" + slug.value + "&";
      assert Endpoint(slug) == head + Populate + thumb;
      assert Api.CourseBySlugPath(slug.value) == head + (Populate + thumb);
    } else {
      assert Api.CoursesPath() == "/api/courses?" + (Populate + thumb);
    }
  }

  /** An empty `slug` takes the listing branch, like no `slug` at all. */
  lemma EmptySlugIsNoSlug()
    ensures Endpoint(Some("")) == Endpoint(None)
  {
  }

  /** `GET(request)` given the CMS's answer to each endpoint. */
  function Get(slug: Option<string>, cms: string -> Upstream): (r: JsonResponse)
    ensures r.body.ErrorMessage? <==>
      cms(Endpoint(slug)).Rejected? || (HasSlug(slug) && |cms(Endpoint(slug)).body.data| == 0)
    ensures r.body.OneCourse? ==>
      HasSlug(slug) && cms(Endpoint(slug)).Fetched? && r.status == 200 && r.body.course == cms(Endpoint(slug)).body.data[0]
    ensures r.body.PassThrough? ==>
      !HasSlug(slug) && cms(Endpoint(slug)).Fetched? && r.status == 200 && r.body.upstream == cms(Endpoint(slug)).body
  {
    match cms(Endpoint(slug))
    case Rejected(status) =>
      JsonResponse(if status.Some? && status.value != 0 then status.value else 500,
                   ErrorMessage("Failed to fetch courses"))
    case Fetched(body) =>
      if HasSlug(slug) then
        if |body.data| == 0 then JsonResponse(404, ErrorMessage("Course not found"))
        else JsonResponse(200, OneCourse(body.data[0]))
      else JsonResponse(200, PassThrough(body))
  }

  /** The route's client (src/lib/fetcher.ts) puts the variable or the
      default in front of that path without the normalisation of api.ts: a
      base ending in '/api' is kept by the route and stripped by `strapiApi`,
      so the two full requests differ although their paths agree. */
  lemma RouteBaseNotNormalised(x: string)
    ensures Api.RawBaseUrl(Some(x + "/api")) == x + "/api"
    ensures Api.BaseUrl(Some(x + "/api")) == x
    ensures Api.RawBaseUrl(Some(x + "/api")) != Api.BaseUrl(Some(x + "/api"))
  {
    Api.ApiSuffixRemoved(x);
  }

  /** A 401 from the CMS is answered 500 by the route, not 401: the
      interceptor's own failure replaces the CMS error. Any other status is
      passed on unchanged. */
  lemma UnauthorizedUpstreamAnswered500(slug: Option<string>, cms: string -> Upstream)
    ensures cms(Endpoint(slug)) == Rejected(Some(401)) ==>
      Get(slug, s => ServerRejection(cms(s))) == JsonResponse(500, ErrorMessage("Failed to fetch courses"))
    ensures cms(Endpoint(slug)).Rejected? && cms(Endpoint(slug)).status.Some? &&
            cms(Endpoint(slug)).status.value != 401 && cms(Endpoint(slug)).status.value != 0 ==>
      Get(slug, s => ServerRejection(cms(s))).status == cms(Endpoint(slug)).status.value
  {
  }

  /** With a slug: 404 'Course not found' for no match, else the first
      match; the answer agrees with `getCourseBySlug` on the same list. */
  lemma SlugResponse(slug: string, cms: string -> Upstream)
    requires slug != "" && cms(Endpoint(Some(slug))).Fetched?
    ensures var courses := cms(Endpoint(Some(slug))).body.data;
      && (|courses| == 0 ==> Get(Some(slug), cms) == JsonResponse(404, ErrorMessage("Course not found")))
      && (|courses| > 0 ==> Get(Some(slug), cms) == JsonResponse(200, OneCourse(courses[0])))
      && (Get(Some(slug), cms).status == 404 <==> Api.GetCourseBySlug(courses).None?)
  {
  }

  /** Without a slug the CMS body is returned unchanged. */
  lemma ListingPassesThrough(slug: Option<string>, cms: string -> Upstream)
    requires !HasSlug(slug) && cms(Endpoint(slug)).Fetched?
    ensures Get(slug, cms) == JsonResponse(200, PassThrough(cms(Endpoint(slug)).body))
  {
  }

  /** Any failure gives 'Failed to fetch courses' with the upstream status,
      or 500 when there is none. */
  lemma FailureResponse(slug: Option<string>, cms: string -> Upstream)
    requires cms(Endpoint(slug)).Rejected?
    ensures Get(slug, cms).body == ErrorMessage("Failed to fetch courses")
    ensures var st := cms(Endpoint(slug)).status;
      Get(slug, cms).status == (if st.Some? && st.value != 0 then st.value else 500)
  {
  }

  /** The response depends on the CMS only through the one endpoint asked. */
  lemma OnlyEndpointConsulted(slug: Option<string>, cms1: string -> Upstream, cms2: string -> Upstream)
    requires cms1(Endpoint(slug)) == cms2(Endpoint(slug))
    ensures Get(slug, cms1) == Get(slug, cms2)
  {
  }
}
