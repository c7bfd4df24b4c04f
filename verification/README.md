# cps-academy-frontend: a Dafny model of the access rules and page logic

This project models the decision logic of the CPS Academy frontend, a Next.js
course platform backed by a Strapi CMS. It has five parts:

- **Role-based access control.** This is the request middleware, with its
  prefix table, its `config.matcher` and its redirect rules. It includes the
  server helpers of `auth.ts` (`hasRole`, `withRole`, the `roleGuards` lists)
  and the `RequireRole` render guard. It also covers the guard lists and
  role-specific links hard-coded in the dashboard, student, manager and
  developer pages. Each of these agrees with the others, and lemmas state
  where they agree and where they do not.
- **CMS response flattening.** The `transformers` turn the Strapi
  `{id, attributes, relation.data}` tree of course, module, class and topic
  into plain records. Ids, order and counts are preserved.
- **Course access and counting.** `ModuleSection` holds the play/lock rule,
  the play link and the in-place sort of classes by `order`. `CourseCard`
  holds the class total, the thumbnail source, the alt text and the price
  label.
- **URL and path building.** This covers the CMS base-URL normalisation and
  the `strapiApi` request paths, the `/api/courses` route handler, and the
  `routes` table of the web app.
- **Page classifiers and form outcomes.** These are:
  - the progress buckets and controls of the student page;
  - the sums, completion colour, stars and top-three list of the manager page;
  - the status counts and colour maps of the developer page;
  - the `onSubmit` state steps of the register and login forms.

Every `async` step, fetch or session read is a sequential step whose
external result is a parameter. Examples: the CMS answer, what
`getServerSession`/`getToken` returned, or how `signIn` ended. Pure
decisions are functions over datatypes.

Code that changes state is written imperatively:
- Page state updated by effects is a class with `modifies` methods (`DashboardState`, `StudentState`, `ManagerState`, `DevState`, `RegisterForm`, `LoginForm`).
- `Array.prototype.sort` on the caller's array is an in-place insertion sort on an `array` (`Sorting.SortByKey`). It is proved sorted and a permutation.

Modules, one per source file:

- `Common` holds the shared vocabulary:
  - `Option`;
  - the JavaScript string tests `startsWith`, `endsWith` and `includes`;
  - `filter`;
  - `join`;
  - the decimal rendering of integers in template literals.
- `Claims` holds the session and token shapes, and the four role names with the `role || 'NormalUser'` default.
- `Middleware`, `Auth`, `RequireRole`, `CmsTypes`, `Api`, `CoursesRoute`, `ModuleSection`, `CourseCard`, `Routes`, `DashboardPage`, `StudentPage`, `ManagerPage`, `DevPage`, `RegisterPage` and `LoginPage` each model one source file.
- `Sorting` holds the in-place sort.

## Model

| member | source | states |
|---|---|---|
| Claims.RoleOf | src/middleware.ts:5-10 | Each role name read back as a `Role` renders to the same name, and it is `Other` iff it is not one of the four names |
| Claims.RoleOfNameOf | src/middleware.ts:5-10 | Reading a well-formed role's name gives back that role (round trip) |
| Claims.EffectiveRole | src/middleware.ts:39 | The effective role is never empty: the token's role when present and non-empty, otherwise 'NormalUser' |
| Middleware.FindPrefix | src/middleware.ts:16-18 | Over any table, the result is the first key the path starts with; None iff no key is a prefix of the path |
| Middleware.RoleHome | src/middleware.ts:43-57 | Student goes to '/student', SocialMediaManager to '/manager', Developer to '/dev', any other role to '/dashboard' |
| Middleware.UnauthorizedTarget | src/middleware.ts:43-67 | One of the four dashboards: the role's home, or '/dashboard' when the path already starts with that home |
| Middleware.Evaluate | src/middleware.ts:12-71 | An unmatched path passes; a matched path without a token goes to login with the path as callbackUrl; an unauthorized redirect happens only for a token whose effective role is outside the matched entry |
| Middleware.KeysPrefixFree | src/middleware.ts:5-10 | No key of the table is a prefix of another key |
| Middleware.MatchIsUnique | src/middleware.ts:5-18 | A path under key i makes `find` return i, and no other key matches it |
| Middleware.NoTwoKeysMatch | src/middleware.ts:5-18 | At most one key matches any path |
| Middleware.FindOrderIndependent | src/middleware.ts:5-18 | Any reordering of the table finds the same entry, and finds none exactly when the original does |
| Middleware.AllowedForTable | src/middleware.ts:38 | The allowed list looked up by the matched key is the table's own entry |
| Middleware.UnprotectedPassesWithoutToken | src/middleware.ts:16-22 | A path under none of the four prefixes passes, and the decision is the same for every token (the token is not read) |
| Middleware.AllowedRolePasses | src/middleware.ts:38-41 | Under key i a token passes iff its effective role is in entry i; a missing or empty role is judged as 'NormalUser' |
| Middleware.DeniedTarget | src/middleware.ts:43-67 | A refusal goes to the role's home, or to '/dashboard' when the path already starts with that home; the target is always one of the four dashboards |
| Middleware.StudentAtDev | src/middleware.ts:43-67 | A Student at '/dev/x' is sent to '/student' with the unauthorized marker |
| Middleware.KnownRoleTargetIsAdmitted | src/middleware.ts:43-63 | For the four known roles the refusal target lets the same token through, so there is no redirect loop |
| Middleware.UnknownRoleLoopsAtDashboard | src/middleware.ts:55-63 | A non-empty role outside the four names is sent from '/dashboard...' to '/dashboard' again, and '/dashboard' itself refuses it |
| Middleware.DeveloperNeverRedirected | src/middleware.ts:5-10 | A Developer token passes on every path |
| Middleware.Handle | src/middleware.ts:73-80 | Outside the matcher the request passes; a login redirect only without a token and with the path as callbackUrl; a refusal only for a token whose effective role the matched entry does not list |
| Middleware.MatcherSelectsKey | src/middleware.ts:73-80 | Inside the matcher's section for key i, `find` returns i, and what the application does is the middleware's decision |
| Middleware.MatcherWithinTable | src/middleware.ts:73-80 | Every path the matcher admits has a table key; outside the matcher nothing is redirected for any token |
| Auth.HasRoleIsMembership | src/lib/auth.ts:29-35 | False with no session or a missing or empty role; otherwise exactly membership of the role in the list |
| Auth.HasRole | src/lib/auth.ts:29-35 | True iff the session has a current role (as `getCurrentUserRole` reads it) and that role is listed |
| Auth.RequireAuth | src/lib/auth.ts:16-24 | Redirects to '/login' iff there is no session; otherwise hands back that very session |
| Auth.AccessDeniedMessage | src/lib/auth.ts:48-50 | The thrown message starts with 'Access denied. Required roles: ', followed by the single role for a one-role guard |
| Auth.WithRole | src/lib/auth.ts:41-55 | A redirect to '/login' iff there is no session; the action's own result on the same arguments iff `hasRole` admits the session; otherwise the access-denied error |
| Auth.WithRoleOutcomes | src/lib/auth.ts:41-55 | No session gives a redirect to '/login' before any role check; a refused role gives the access-denied error; an admitted role gives the action's own result on the same arguments |
| Auth.WithRoleRefusalIgnoresAction | src/lib/auth.ts:46-50 | When the role is not admitted, the outcome does not depend on the action and is never a returned value (the action is not called) |
| Auth.GuardsNest | src/lib/auth.ts:100-115 | developer admits a subset of admin, admin of enrolled, enrolled of authenticated, student of enrolled; no session passes both student and admin |
| Auth.IsAdmin | src/lib/auth.ts:76-79 | True iff the session's role is Developer or SocialMediaManager |
| Auth.IsStudent | src/lib/auth.ts:84-87 | True iff the session's role is Student |
| Auth.IsAuthenticated | src/lib/auth.ts:68-71 | True iff `requireAuth` would not redirect |
| Auth.GetCurrentUserRole | src/lib/auth.ts:60-63 | The session's role when present and non-empty, null otherwise |
| Auth.GetEnrolledCourses | src/lib/auth.ts:92-95 | `profile.enrolledCourses` when the whole chain is present, [] when any link is missing |
| Auth.CurrentRoleAgreesWithHasRole | src/lib/auth.ts:29-35 | `hasRole` admits a session iff it has a current role and that role is listed |
| Auth.RolelessSessionAdmittedOnlyByMiddleware | src/lib/auth.ts:30-32 | A session without a role fails the `authenticated` guard, yet the middleware lets the same token into '/dashboard' |
| RequireRole.DeniedMessage | src/components/auth/RequireRole.tsx:74 | A non-empty `fallbackMessage` is shown as given; otherwise the fixed sentence followed by the allowed roles joined by ', ' |
| RequireRole.Render | src/components/auth/RequireRole.tsx:26-95 | Children iff not loading, a session exists and its effective role is in `allowedRoles`; a denial always carries the denial message and the '/dashboard' link |
| RequireRole.LoadingFirst | src/components/auth/RequireRole.tsx:26-35 | While loading, the loading card is shown whatever the session |
| RequireRole.NoSessionCard | src/components/auth/RequireRole.tsx:38-58 | With no session, the authentication card is shown, with a login link unless `showLogin` is false (its default is true) |
| RequireRole.ChildrenIff | src/components/auth/RequireRole.tsx:62-95 | Children render iff not loading, a session exists and the effective role is in `allowedRoles` |
| RequireRole.DeniedView | src/components/auth/RequireRole.tsx:62-91 | A refused role gets the denial card with the current role, the denial message and a link to '/dashboard' |
| RequireRole.AgreesWithMiddleware | src/components/auth/RequireRole.tsx:62-63 | Given the list of middleware entry i, the guard renders children exactly when the middleware passes the same role under key i |
| CmsTypes.FlattenTopic | src/lib/types.ts:188-195 | id, title, description, orderIndex, createdAt and updatedAt are copied |
| CmsTypes.FlattenTopicDropsPublishedAt | src/lib/types.ts:188-195 | Topics differing only in `publishedAt` flatten alike |
| CmsTypes.FlattenTopics | src/lib/types.ts:209 | Same length, each element the flattened source element at the same index |
| CmsTypes.FlattenClass | src/lib/types.ts:197-210 | The id is kept; topics are the relation's data mapped, or [] when the relation is absent |
| CmsTypes.FlattenClasses | src/lib/types.ts:219 | Same length, element-wise, in order |
| CmsTypes.FlattenModule | src/lib/types.ts:212-220 | The id is kept; classes are the relation's data mapped, or [] when absent |
| CmsTypes.FlattenModules | src/lib/types.ts:240 | Same length, element-wise, in order |
| CmsTypes.FlattenThumbnail | src/lib/types.ts:234-239 | Defined iff the media relation has data; then url, alternativeText, width and height are copied |
| CmsTypes.FlattenCourse | src/lib/types.ts:222-241 | id, slug and title are kept; the thumbnail and modules are the flattened relations |
| CmsTypes.BackRelationsIgnored | src/lib/types.ts:197-220 | A class's `module` and a module's `course` back-relations do not affect the result |
| CmsTypes.IdsPreserved | src/lib/types.ts:197-241 | The flattened modules, and the classes of each module, carry the source ids in source order |
| CmsTypes.TopicCountPreserved | src/lib/types.ts:197-241 | A flattened course has exactly as many topics as the source course (nothing is sorted or filtered) |
| Api.RawBaseUrl | src/lib/api.ts:3 | The variable when set and non-empty, otherwise 'http://localhost:1337' |
| Api.StripTrailingSlash | src/lib/api.ts:5 | Exactly one trailing '/' is removed when there is one, otherwise the string is unchanged |
| Api.BaseUrl | src/lib/api.ts:3-8 | The base URL is a prefix of the raw value, at most five characters shorter, and the default 'http://localhost:1337' when the variable is unset or empty |
| Api.NormalizeBaseUrl | src/lib/api.ts:5-8 | The result is a prefix of the raw value and at most five characters shorter |
| Api.ApiSuffixRemoved | src/lib/api.ts:4-8 | 'X/api' and 'X/api/' both normalise to 'X' |
| Api.ApiSuffixRemovedOnce | src/lib/api.ts:4-8 | 'X/api/api' normalises to 'X/api': the suffix is removed once only |
| Api.PlainBaseUrlKept | src/lib/api.ts:5-8 | A value ending in neither '/' nor '/api' is kept unchanged |
| Api.DefaultBase | src/lib/api.ts:3-8 | Unset or empty, the base URL is 'http://localhost:1337' |
| Api.SlugVerbatim | src/lib/api.ts:91-93 | The slug appears verbatim right after 'filters[slug][$eq]=' |
| Api.FilterIdsVerbatim | src/lib/api.ts:107-116 | The course id and the module id go verbatim into their filter: distinct ids give distinct paths |
| Api.PathIdsVerbatim | src/lib/api.ts:101-122 | The course id and class id go verbatim into the path: distinct ids give distinct paths |
| Api.GetCourseBySlug | src/lib/api.ts:96-97 | Null iff the result list is empty, otherwise its first course |
| CoursesRoute.Endpoint | src/app/api/courses/route.ts:10-22 | With a non-empty slug, the slug filter, the populate query and the thumbnail populate; otherwise the listing query and the thumbnail populate |
| CoursesRoute.EndpointMatchesClient | src/app/api/courses/route.ts:10-22 | The route asks the CMS for the same relative path as `getCourseBySlug` or `getCourses` (the base URLs differ, see the next row) |
| CoursesRoute.RouteBaseNotNormalised | src/lib/fetcher.ts:5 | The route's client keeps a base ending in '/api' that `strapiApi` strips, so with such a variable the full requests differ |
| CoursesRoute.Get | src/app/api/courses/route.ts:4-47 | An error body iff the request failed or a slug query found nothing; otherwise 200 with the first match for a slug, or the CMS body unchanged without one |
| CoursesRoute.EmptySlugIsNoSlug | src/app/api/courses/route.ts:14-27 | An empty slug takes the listing branch |
| CoursesRoute.SlugResponse | src/app/api/courses/route.ts:27-35 | With a slug: 404 'Course not found' for no match, else 200 with the first match; the 404 happens iff `getCourseBySlug` would give null |
| CoursesRoute.ListingPassesThrough | src/app/api/courses/route.ts:39 | Without a slug the CMS body is returned unchanged |
| CoursesRoute.FailureResponse | src/app/api/courses/route.ts:40-46 | Any failure answers 'Failed to fetch courses' with the status of the error that reaches the `catch` block, or 500 when there is none |
| CoursesRoute.ServerRejection | src/lib/fetcher.ts:30-40 | On the server, a CMS 401 reaches the route as an error without a status (the unguarded `localStorage` access throws); every other answer passes unchanged |
| CoursesRoute.UnauthorizedUpstreamAnswered500 | src/lib/fetcher.ts:30-40 | Through the client, a CMS 401 is answered 500 'Failed to fetch courses', while any other non-zero status is passed on |
| CoursesRoute.OnlyEndpointConsulted | src/app/api/courses/route.ts:24 | The response depends on the CMS only through the one endpoint asked |
| ModuleSection.AccessRule | src/components/courses/ModuleSection.tsx:50-53 | A free preview is always playable, even with no session; otherwise playable iff the session's role is Student and the user is enrolled (Developers and managers are locked out) |
| ModuleSection.CanAccess | src/components/courses/ModuleSection.tsx:50-53 | A free preview is always accessible; any other class only to an enrolled session whose role is Student |
| ModuleSection.LockLabel | src/components/courses/ModuleSection.tsx:104 | 'Login required' iff there is no session, otherwise 'Enrollment required' |
| ModuleSection.PlayHref | src/components/courses/ModuleSection.tsx:95 | The link is the module's '/courses/<slug>/modules/<order>/classes/' prefix followed by the class order alone, so the order can be read back |
| ModuleSection.PlayHrefUnderCourse | src/components/courses/ModuleSection.tsx:95 | The play link lies under '/courses/<slug>/modules/' |
| ModuleSection.PlayHrefInjective | src/components/courses/ModuleSection.tsx:95 | Two classes of a module share a play link only when their `order` is equal |
| ModuleSection.ClassControl | src/components/courses/ModuleSection.tsx:93-107 | A Play control iff access is granted, linking to the class's play link; otherwise a lock reading 'Login required' iff there is no session |
| ModuleSection.TopicsCount | src/components/courses/ModuleSection.tsx:55 | The topics length, or 0 when topics are absent |
| ModuleSection.TopicsLabelIff | src/components/courses/ModuleSection.tsx:55-88 | The topics label shows iff the topic list is present and non-empty |
| ModuleSection.SortedClasses | src/components/courses/ModuleSection.tsx:116-146 | Absent classes give []; otherwise the module's own array is reordered in place, and what is shown is that array, a permutation of the input in non-decreasing `order`; the 'No classes available' message shows iff the classes are absent or empty |
| Sorting.SortByKey | src/app/manager/page.tsx:303-304 | The array ends sorted by the key and is a permutation of its old contents |
| CourseCard.TotalClasses | src/components/courses/CourseCard.tsx:32-34 | 0 when `modules` is absent; otherwise the left-to-right sum over the modules of `classes?.length || 0`, and so at least the class count of every module |
| CourseCard.SumClassesAppend | src/components/courses/CourseCard.tsx:32-34 | The class total splits over concatenation of module lists |
| CourseCard.SumClassesBounds | src/components/courses/CourseCard.tsx:32-34 | The total is 0 iff every module has no class, and at least each module's class count |
| CourseCard.ClassLabelShown | src/components/courses/CourseCard.tsx:80-85 | The class label appears iff `modules` is present and some module has a class |
| CourseCard.ModuleLabelCoversClassLabel | src/components/courses/CourseCard.tsx:73-85 | The class label never shows without the module label; an empty module list shows the module label and no class label |
| CourseCard.EnvText | src/components/courses/CourseCard.tsx:37 | A set variable renders as itself, an unset one as the text 'undefined' |
| CourseCard.UnsetBaseGivesUndefined | src/components/courses/CourseCard.tsx:36-38 | As written, with the variable unset a card with media requests a path starting with 'undefined', not the CMS |
| CourseCard.ThumbnailUrlAsWritten | src/components/courses/CourseCard.tsx:36-38 | As written: the variable's template-literal text (itself when set, 'undefined' when unset, with no default and no normalisation) directly followed by the media url when the url is non-empty, otherwise '/placeholder-course.jpg' |
| CourseCard.ThumbnailUrl | src/components/courses/CourseCard.tsx:36-38 | Corrected definition, not the code as written: the CMS client's defaulted and normalised base URL followed by the media url when the url is non-empty, otherwise '/placeholder-course.jpg' |
| CourseCard.ThumbnailUrlCorrected | src/components/courses/CourseCard.tsx:36-38 | The corrected source reaches the CMS default when unset, and equals the as-written one for any base URL the client keeps unchanged |
| CourseCard.AltText | src/components/courses/CourseCard.tsx:46 | The alternative text when present and non-empty, otherwise the title |
| CourseCard.Price | src/components/courses/CourseCard.tsx:95-99 | No label iff the price is undefined, 'Free' iff it is 0, otherwise the non-zero amount |
| CourseCard.CardHref | src/components/courses/CourseCard.tsx:42 | The card links to the course detail route, from which the slug is recovered |
| Routes.CourseDetail | web/src/lib/routes.ts:6-7 | `courses + '/' + slug`, which starts with '/courses/' and gives back the slug after it |
| Routes.CourseDetailInjective | web/src/lib/routes.ts:7 | Distinct slugs give distinct detail paths |
| Routes.StudentRoutesNest | web/src/lib/routes.ts:23-27 | The module route extends the course route by '/modules/' + id, and the class route extends the module route by '/classes/' + id |
| Routes.SectionPrefixes | web/src/lib/routes.ts:20-44 | Every student route starts with '/student/', every manager route with '/sm-manager/', every developer route with '/developer/' |
| Routes.DeveloperSectionSkipped | web/src/lib/routes.ts:39-44 | src/middleware.ts's decision on the '/developer/...' path strings of this table: its prefix table would file them under '/dev', but its matcher does not cover them, so `Handle` passes them for any token |
| Routes.StudentSectionGuarded | web/src/lib/routes.ts:20-28 | src/middleware.ts's decision on the '/student/...' path strings of this table: inside the matcher and decided by the '/student' entry |
| Routes.ManagerSectionUnguarded | web/src/lib/routes.ts:31-36 | src/middleware.ts's decision on the '/sm-manager/...' path strings of this table: under no key, passed for any token |
| Routes.SectionsUnderMiddleware | web/src/lib/routes.ts:20-44 | src/middleware.ts's decision over every path string the table builds: developer and manager strings pass for any token, student strings are decided by the '/student' entry |
| Routes.ApiArgumentsRecoverable | web/src/lib/routes.ts:53-57 | Each API builder places its argument verbatim at a fixed offset and ends with its fixed suffix |
| DashboardPage.DashboardState.constructor | src/app/dashboard/page.tsx:35-43 | The page starts loading with empty lists and zero stats |
| DashboardPage.DashboardState.FetchData | src/app/dashboard/page.tsx:45-77 | `loading` ends false on every path; `recentCourses` and `stats` change only on an ok answer and a throw skips later steps; continue-watching is filled only for a Student |
| DashboardPage.QuickActions | src/app/dashboard/page.tsx:79-150 | Student: /student, /courses; SocialMediaManager: /manager, /courses; Developer: /dev, /student, /manager; any other role: /courses |
| DashboardPage.QuickActionsAdmitted | src/app/dashboard/page.tsx:82-149 | Every link offered to a role passes the middleware for that role |
| DashboardPage.StudentPanelsMatchQuickActions | src/app/dashboard/page.tsx:196-284 | The Student-only panels show exactly for the role whose first quick action is '/student' |
| DashboardPage.GuardMatchesMiddleware | src/app/dashboard/page.tsx:153 | The guard list is the '/dashboard' entry; inside that section the page renders iff the application lets the request through |
| StudentPage.BucketsPartition | src/app/student/page.tsx:84-86 | The buckets are pairwise disjoint; a progress in [0, 100] is in exactly one, one outside it in none |
| StudentPage.BucketCounts | src/app/student/page.tsx:84-86 | The three bucket sizes add up to the number of in-range courses, so to all courses when every progress is in range |
| StudentPage.ProgressColor | src/app/student/page.tsx:88-92 | Green iff exactly 100, blue iff at least 50 but not 100, yellow iff below 50 |
| StudentPage.ContinueLearning | src/app/student/page.tsx:162 | The first two in-progress courses (fewer if there are fewer), in input order; empty iff none is in progress |
| StudentPage.ContinueLearningShownIff | src/app/student/page.tsx:152-162 | The Continue Learning section shows iff it lists at least one course |
| StudentPage.ButtonLabel | src/app/student/page.tsx:278 | 'Continue' iff progress > 0, otherwise 'Start' |
| StudentPage.ControlsFollowBuckets | src/app/student/page.tsx:258-278 | The star shows iff completed; completed and in-progress courses show the bar and 'Continue'; not-started ones show no bar and 'Start' |
| StudentPage.StudentState.FetchEnrolledCourses | src/app/student/page.tsx:35-82 | The enrolled list is loaded and `loading` cleared |
| StudentPage.LoadedBuckets | src/app/student/page.tsx:39-86 | Once loaded, all three courses are in progress, and Continue Learning shows the first two |
| StudentPage.GuardMatchesMiddleware | src/app/student/page.tsx:95 | The guard list is the '/student' entry; inside that section the page and the application agree |
| ManagerPage.SumByAppend | src/app/manager/page.tsx:105-107 | The `reduce` sum splits over concatenation |
| ManagerPage.SumByBounds | src/app/manager/page.tsx:105-107 | Non-negative terms give a non-negative sum bounded below by each term |
| ManagerPage.SumRatesBounds | src/app/manager/page.tsx:106 | Rates in [0, 100] sum to between 0 and 100 per course |
| ManagerPage.Round | src/app/manager/page.tsx:112 | `Math.round`: the integer within half a unit, halves rounded up |
| ManagerPage.AvgCompletion | src/app/manager/page.tsx:106-112 | Undefined (NaN in the source) iff the list is empty; otherwise `Math.round` of the sum of the rates divided by the number of courses |
| ManagerPage.AvgCompletionBounds | src/app/manager/page.tsx:106-112 | With rates in [0, 100] the rounded average is in [0, 100] |
| ManagerPage.ComputeStats | src/app/manager/page.tsx:102-116 | The course total is the list length; the student and view totals are the `reduce` sums of enrollments and of views; the average is the rounded mean, undefined iff the list is empty |
| ManagerPage.StatsBoundEachCourse | src/app/manager/page.tsx:105-114 | The student and view totals are each at least every course's own count |
| ManagerPage.CompletionColor | src/app/manager/page.tsx:139-143 | Green iff rate >= 80, yellow iff 60 <= rate < 80, red iff rate < 60 |
| ManagerPage.Stars | src/app/manager/page.tsx:126-137 | Five stars, star i filled iff i < floor(rating) |
| ManagerPage.StarsFilledPrefix | src/app/manager/page.tsx:126-137 | The filled stars come first, and for a rating in [0, 5] exactly floor(rating) are filled |
| ManagerPage.LoadedStats | src/app/manager/page.tsx:55-116 | Once loaded: 4 courses, 874 students, average completion 69, 4430 views |
| ManagerPage.ManagerState.FetchData | src/app/manager/page.tsx:102-116 | The course array is the loaded list, the stats are computed from it, and `loading` is cleared |
| ManagerPage.ManagerState.PopularCourses | src/app/manager/page.tsx:303-306 | The page's array is reordered in place into a permutation in non-increasing enrollments; the shown list is its first min(3, n) entries, none below any entry left out |
| ManagerPage.GuardMatchesMiddleware | src/app/manager/page.tsx:146 | The guard list is the '/manager' entry; inside that section the page and the application agree |
| DevPage.StatusCounts | src/app/dev/page.tsx:177-179 | healthy + warning + error counts equal the services with a declared status, so all services when every status is declared |
| DevPage.EnabledFlagsBound | src/app/dev/page.tsx:180 | The enabled count never exceeds the flag count, and equals it iff every flag is enabled |
| DevPage.StatusColor | src/app/dev/page.tsx:151-162 | Green for healthy, yellow for warning, red for error, gray otherwise |
| DevPage.EnvironmentColor | src/app/dev/page.tsx:164-175 | Green for production, yellow for staging, blue for development, gray otherwise |
| DevPage.ColoursDistinguish | src/app/dev/page.tsx:151-175 | Each declared status or environment has its own colour, different from every other value's |
| DevPage.DevState.FetchSystemData | src/app/dev/page.tsx:47-136 | Both lists are loaded and `loading` cleared |
| DevPage.LoadedCounts | src/app/dev/page.tsx:177-180 | Once loaded: 4 healthy, 1 warning, 0 error services, and 3 flags enabled |
| DevPage.GuardMatchesMiddleware | src/app/dev/page.tsx:183 | The guard list is the '/dev' entry, the page and the application agree inside '/dev', and both linked dashboards pass for a Developer |
| RegisterPage.ClassifyError | src/app/register/page.tsx:54-65 | The shown text is never empty; the catch block itself throws iff the CMS error has no message |
| RegisterPage.ClassifyErrorCases | src/app/register/page.tsx:54-65 | 'email' wins, then 'username'; any other message is shown as is, an empty one as 'Registration failed'; no CMS error gives 'An unexpected error occurred' |
| RegisterPage.EmailBeforeUsername | src/app/register/page.tsx:56-57 | A message naming both fields is reported as an email clash |
| RegisterPage.CaseSensitive | src/app/register/page.tsx:56-59 | The tests are case-sensitive: 'Email' is shown verbatim |
| RegisterPage.RegisterForm.BeginSubmit | src/app/register/page.tsx:32-33 | `isLoading` set and `error` cleared; nothing else changes |
| RegisterPage.RegisterForm.FinishSubmit | src/app/register/page.tsx:35-68 | `isLoading` cleared on every path; success and the 2000 ms redirect only for a response with data; the error only on a rejection the catch block can classify |
| RegisterPage.RegisterForm.OnSubmit | src/app/register/page.tsx:31-69 | The whole submit: the error is the classified message, else none; `onSubmit` itself rejects iff the CMS error lacks a message |
| LoginPage.LoginForm.BeginSubmit | src/app/login/page.tsx:30-31 | `isLoading` set and `error` cleared; nothing else changes |
| LoginPage.LoginForm.FinishSubmit | src/app/login/page.tsx:33-56 | A throw gives 'An unexpected error occurred', an error result 'Invalid email or password'; only an ok result without error navigates to '/dashboard' and refreshes; `isLoading` is cleared on every path |
| LoginPage.LoginForm.OnSubmit | src/app/login/page.tsx:29-57 | An error is shown iff the call threw or returned an error, and then there is no navigation; an ok result without error always navigates to '/dashboard' and refreshes; every other outcome leaves navigation and refresh unchanged; `isLoading` ends false |
| LoginPage.CallbackUrlIgnored | src/app/login/page.tsx:42-49 | The middleware sends a protected path to login with that path as callbackUrl, yet login always lands on '/dashboard', another section unless the path was under '/dashboard' |

## Left out

- JSX, Tailwind classes, icons and layout are not modelled. Only the decisions that feed them are.
- next-auth internals are not modelled: `getToken`, `getServerSession`, `signIn`, `useSession` and JWT handling. What they return is a parameter. The credential exchange in the next-auth route is not part of this model.
- The axios instances are not modelled, and neither are their request interceptors, which read a token from `localStorage` only in the browser. The response interceptor of src/lib/api.ts is guarded the same way and is left out. The response interceptor of src/lib/fetcher.ts (lines 30-40) is not guarded. Its effect on the `/api/courses` route, a 401 answered 500, is modelled by CoursesRoute.ServerRejection. Its browser effects, removing the token and navigating to '/auth/signin', are not modelled. The key mismatch ('authToken' in api.ts, 'auth-token' in fetcher.ts) is not modelled either.
- CoursesRoute.Get: its `cms` parameter gives the answer as it reaches the `catch` block. Only a `cms` composed with CoursesRoute.ServerRejection shows the server's 500 for a CMS 401; on its own, `Get` passes any status on.
- The course card's level badge and duration show when the field is non-empty. They are display-only and not modelled.
- URL percent-encoding is not modelled. This applies to the `callbackUrl` and `error` query values and to slugs placed in paths. Redirects carry the path and query value as plain data.
- `config.matcher` is modelled as path-to-regexp's `'/x/:path*'`: the path '/x' itself, or any path below '/x/'. Trailing-slash rewriting, locales and base paths are not modelled.
- Rendering a price or a count as text is not modelled; the price is a `PriceLabel` value. `toLocaleString` and `toLocaleDateString` are left out as well.
- Floating point is not modelled. Completion rates, ratings, progress and prices are exact reals, so rounding error in the manager's average is absent.
- The 2000 ms `setTimeout` is modelled only as the redirect it schedules. When it fires is not modelled.
- The `/api/courses` route reaches the CMS through src/lib/fetcher.ts, whose base URL is the variable or the default without the '/' and '/api' stripping of src/lib/api.ts. Only the relative path and that difference of bases are modelled; axios's joining of base and path is not.
- web/src/lib/routes.ts belongs to the separate `web/` application, which has its own layout and page and no middleware among these files. The `Routes` section lemmas state what src/middleware.ts decides on its path strings. Whether requests to the `web/` application ever pass through that middleware (for example, both apps served behind one deployment) is not modelled.
- Sorting.SortByKey: the result is sorted and a permutation, but stability is not stated. JavaScript's `Array.prototype.sort` is stable, so the order among classes with equal `order`, or courses with equal enrollments, is not captured.
- The mock data is modelled only where the page computes something from it (the manager's course list, the student's enrolled list, the developer's status and flags). Other literal content is left out, such as the dashboard's continue-watching entries beyond their presence.
- The dashboard's welcome text and the status icons are left out; they are display-only.
- The login page reads the session after a successful sign-in, and only logs it. That read is left out.
- The sign-in and registration requests themselves are not modelled. The model receives how they ended.
- Auth.AccessDeniedMessage: the contract states the prefix for every list and the full text only for one-role lists. For longer lists the text is the roles joined by ', ', which the contract does not spell out.

## Findings

| source | as written | input that shows it | evidently intended | confidence | as-written member | corrected member |
|---|---|---|---|---|---|---|
| src/components/courses/CourseCard.tsx:36-38 | The thumbnail source is the raw `NEXT_PUBLIC_API_BASE_URL` followed by the media url. When the variable is unset, the template literal renders 'undefined'. The variable also skips the normalisation the CMS client applies. | Variable unset and thumbnail url '/uploads/a.jpg': the source becomes 'undefined/uploads/a.jpg' | The base URL the CMS client uses, defaulting to 'http://localhost:1337' and normalised the same way | not executed | CourseCard.UnsetBaseGivesUndefined | CourseCard.ThumbnailUrl |
