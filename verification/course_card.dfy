/** The course card (src/components/courses/CourseCard.tsx): the class
    total, the thumbnail source and alt text, the labels shown and the link.
    The environment variable NEXT_PUBLIC_API_BASE_URL is a parameter. */
module CourseCard {
  import opened Common
  import Api
  import Routes

  datatype CardClass = CardClass(id: int, title: string)
  datatype CardModule = CardModule(id: int, title: string, classes: Option<seq<CardClass>>)
  datatype CardThumbnail = CardThumbnail(url: string, alternativeText: Option<string>)
  datatype CardCourse = CardCourse(
    id: int, slug: string, title: string, description: string, level: string,
    duration: Option<string>, price: Option<real>, thumbnail: Option<CardThumbnail>,
    modules: Option<seq<CardModule>>)

  /** `module.classes?.length || 0` */
  function ClassCount(m: CardModule): nat {
    match m.classes
    case None => 0
    case Some(cs) => |cs|
  }

  /** The `reduce` over the modules, left to right from 0. */
  function SumClasses(modules: seq<CardModule>): nat {
    if |modules| == 0 then 0 else SumClasses(modules[..|modules| - 1]) + ClassCount(modules[|modules| - 1])
  }

  /** `course.modules?.reduce(...) || 0` */
  function TotalClasses(course: CardCourse): (n: nat)
    ensures course.modules.None? ==> n == 0
    ensures course.modules.Some? ==> n == SumClasses(course.modules.value)
    ensures course.modules.Some? ==>
      forall i :: 0 <= i < |course.modules.value| ==> ClassCount(course.modules.value[i]) <= n
  {
    match course.modules
    case None => 0
    case Some(ms) => SumClassesBounds(ms); SumClasses(ms)
  }

  /** The sum splits over concatenation. */
  lemma {:induction false} SumClassesAppend(xs: seq<CardModule>, ys: seq<CardModule>)
    ensures SumClasses(xs + ys) == SumClasses(xs) + SumClasses(ys)
    decreases |ys|
  {
    if |ys| > 0 {
      assert (xs + ys)[..|xs + ys| - 1] == xs + ys[..|ys| - 1];
      assert (xs + ys)[|xs + ys| - 1] == ys[|ys| - 1];
      SumClassesAppend(xs, ys[..|ys| - 1]);
    } else {
      assert xs + ys == xs;
    }
  }

  /** The total is 0 exactly when no module has a class, and it is at least
      the class count of any one module. */
  lemma {:induction false} SumClassesBounds(modules: seq<CardModule>)
    ensures SumClasses(modules) == 0 <==> forall i :: 0 <= i < |modules| ==> ClassCount(modules[i]) == 0
    ensures forall i :: 0 <= i < |modules| ==> ClassCount(modules[i]) <= SumClasses(modules)
    decreases |modules|
  {
    if |modules| > 0 {
      var init := modules[..|modules| - 1];
      SumClassesBounds(init);
      assert forall i :: 0 <= i < |init| ==> init[i] == modules[i];
    }
  }

  /** The module label is shown iff `modules` is defined, even when empty. */
  predicate ShowModuleCount(course: CardCourse) {
    course.modules.Some?
  }

  /** The class label never appears without the module label, while an empty
      module list shows '0 modules' and no class label. */
  lemma ModuleLabelCoversClassLabel(course: CardCourse)
    ensures TotalClasses(course) > 0 ==> ShowModuleCount(course)
    ensures course.modules == Some([]) ==> ShowModuleCount(course) && TotalClasses(course) == 0
  {
  }

  /** The class label is shown iff some module has a class. */
  lemma ClassLabelShown(course: CardCourse)
    ensures TotalClasses(course) > 0 <==>
      course.modules.Some? && exists i :: 0 <= i < |course.modules.value| && ClassCount(course.modules.value[i]) > 0
  {
    if course.modules.Some? {
      SumClassesBounds(course.modules.value);
    }
  }

  /** The template literal renders an unset variable as the text 'undefined'. */
  function EnvText(env: Option<string>): (t: string)
    ensures env.Some? ==> t == env.value
    ensures env.None? ==> t == "undefined"
  {
    match env
    case None => "undefined"
    case Some(v) => v
  }

  const Placeholder := "/placeholder-course.jpg"

  /** The thumbnail source AS WRITTEN: the raw variable, unset or not,
      directly before the media path; the placeholder when there is no
      non-empty url. */
  function ThumbnailUrlAsWritten(env: Option<string>, course: CardCourse): (r: string)
    ensures course.thumbnail.Some? && course.thumbnail.value.url != "" ==> r == EnvText(env) + course.thumbnail.value.url
    ensures course.thumbnail.Some? && course.thumbnail.value.url != "" && env.Some? ==>
      r[..|env.value|] == env.value && r[|env.value|..] == course.thumbnail.value.url
    ensures !(course.thumbnail.Some? && course.thumbnail.value.url != "") ==> r == Placeholder
  {
    if course.thumbnail.Some? && course.thumbnail.value.url != "" then EnvText(env) + course.thumbnail.value.url
    else Placeholder
  }

  /** With the variable unset, a card with media asks for a relative path
      starting with 'undefined', not for the CMS. */
  lemma UnsetBaseGivesUndefined(course: CardCourse)
    requires course.thumbnail.Some? && course.thumbnail.value.url != ""
    ensures StartsWith(ThumbnailUrlAsWritten(None, course), "undefined")
    ensures !StartsWith(ThumbnailUrlAsWritten(None, course), Api.DefaultBaseUrl)
  {
    StartsWithAppend("undefined", course.thumbnail.value.url);
    assert ThumbnailUrlAsWritten(None, course)[0] == 'u';
  }

  /** The CORRECTED thumbnail source: the base URL the CMS client uses (its
      default for an unset variable, and the same normalisation). The rest
      of the model and the lemma below use this definition. */
  function ThumbnailUrl(env: Option<string>, course: CardCourse): (r: string)
    ensures course.thumbnail.Some? && course.thumbnail.value.url != "" ==> r == Api.BaseUrl(env) + course.thumbnail.value.url
    ensures !(course.thumbnail.Some? && course.thumbnail.value.url != "") ==> r == Placeholder
  {
    if course.thumbnail.Some? && course.thumbnail.value.url != "" then Api.BaseUrl(env) + course.thumbnail.value.url
    else Placeholder
  }

  /** The corrected source reaches the CMS whenever the variable is unset,
      and agrees with the as-written one whenever the variable is set to a
      base URL the client keeps unchanged. */
  lemma ThumbnailUrlCorrected(env: Option<string>, course: CardCourse)
    ensures env.None? && course.thumbnail.Some? && course.thumbnail.value.url != "" ==>
      StartsWith(ThumbnailUrl(env, course), Api.DefaultBaseUrl)
    ensures env.Some? && env.value != "" && !EndsWith(env.value, "/") && !EndsWith(env.value, "/api") ==>
      ThumbnailUrl(env, course) == ThumbnailUrlAsWritten(env, course)
  {
    if env.None? && course.thumbnail.Some? && course.thumbnail.value.url != "" {
      Api.DefaultBase(env);
      StartsWithAppend(Api.DefaultBaseUrl, course.thumbnail.value.url);
    }
    if env.Some? && env.value != "" && !EndsWith(env.value, "/") && !EndsWith(env.value, "/api") {
      Api.PlainBaseUrlKept(env.value);
    }
  }

  /** `course.thumbnail?.alternativeText || course.title` */
  function AltText(course: CardCourse): (t: string)
    ensures course.thumbnail.Some? && course.thumbnail.value.alternativeText.Some? && course.thumbnail.value.alternativeText.value != ""
      ==> t == course.thumbnail.value.alternativeText.value
    ensures !(course.thumbnail.Some? && course.thumbnail.value.alternativeText.Some? && course.thumbnail.value.alternativeText.value != "")
      ==> t == course.title
  {
    if course.thumbnail.Some? && course.thumbnail.value.alternativeText.Some? && course.thumbnail.value.alternativeText.value != ""
    then course.thumbnail.value.alternativeText.value
    else course.title
  }

  /** The price corner: nothing, 'Free', or '$' and the amount. */
  datatype PriceLabel = NoPrice | Free | Dollars(amount: real)

  function Price(course: CardCourse): (p: PriceLabel)
    ensures p.NoPrice? <==> course.price.None?
    ensures p.Free? <==> course.price == Some(0.0)
    ensures p.Dollars? ==> course.price == Some(p.amount) && p.amount != 0.0
  {
    match course.price
    case None => NoPrice
    case Some(v) => if v == 0.0 then Free else Dollars(v)
  }

  /** The card links to the course page of the route table. */
  function CardHref(course: CardCourse): (h: string)
    ensures h == Routes.CourseDetail(course.slug)
    ensures h[|"/courses/"|..] == course.slug
  {
    "/courses/" + course.slug
  }
}
