/** One module of a course page (src/components/courses/ModuleSection.tsx):
    the classes sorted in place by `order`, and for each class whether it
    can be played, the play link, the lock label and the topic count. */
module ModuleSection {
  import opened Common
  import opened Claims
  import Sorting

  datatype SectionTopic = SectionTopic(id: int, title: string, description: Option<string>, order: int)

  datatype SectionClass = SectionClass(
    id: int, title: string, description: Option<string>, duration: Option<string>,
    isFreePreview: Option<bool>, order: int, topics: Option<seq<SectionTopic>>)

  /** `session?.role === 'Student'` */
  predicate IsStudentSession(session: Option<Session>) {
    session.Some? && session.value.role == Some(StudentName)
  }

  /** `classItem.isFreePreview || (isStudent && isEnrolled)` */
  function CanAccess(session: Option<Session>, classItem: SectionClass, isEnrolled: bool): (b: bool)
    ensures classItem.isFreePreview == Some(true) ==> b
    ensures b && classItem.isFreePreview != Some(true) ==> isEnrolled && session.Some? && session.value.role == Some(StudentName)
  {
    classItem.isFreePreview == Some(true) || (IsStudentSession(session) && isEnrolled)
  }

  /** Only a free preview, or an enrolled Student, may play: a Developer or a
      manager is locked out of a non-preview class even when enrolled, and a
      free preview is playable with no session at all. */
  lemma AccessRule(session: Option<Session>, classItem: SectionClass, isEnrolled: bool)
    ensures classItem.isFreePreview == Some(true) ==> CanAccess(session, classItem, isEnrolled)
    ensures classItem.isFreePreview != Some(true) ==>
      (CanAccess(session, classItem, isEnrolled) <==> isEnrolled && session.Some? && session.value.role == Some(StudentName))
    ensures classItem.isFreePreview == Some(true) ==> CanAccess(None, classItem, false)
  {
  }

  /** `!session ? 'Login required' : 'Enrollment required'` */
  function LockLabel(session: Option<Session>): (text: string)
    ensures text == "Login required" <==> session.None?
    ensures text != "Login required" ==> text == "Enrollment required"
  {
    if session.None? then "Login required" else "Enrollment required"
  }

  /** The link prefix shared by the classes of one module. */
  function ClassesPrefix(courseSlug: string, moduleOrder: int): string {
    "/courses/" + courseSlug + "/modules/" + IntToString(moduleOrder) + "/classes/"
  }

  /** The play link of a class. */
  function PlayHref(courseSlug: string, moduleOrder: int, classOrder: int): (h: string)
    ensures |ClassesPrefix(courseSlug, moduleOrder)| < |h|
    ensures h[..|ClassesPrefix(courseSlug, moduleOrder)|] == ClassesPrefix(courseSlug, moduleOrder)
    ensures h[|ClassesPrefix(courseSlug, moduleOrder)|..] == IntToString(classOrder)
  {
    ClassesPrefix(courseSlug, moduleOrder) + IntToString(classOrder)
  }

  /** The play link lies under the course page's module links. */
  lemma PlayHrefUnderCourse(courseSlug: string, moduleOrder: int, classOrder: int)
    ensures StartsWith(PlayHref(courseSlug, moduleOrder, classOrder), "/courses/" + courseSlug + "/modules/")
  {
    var course := "/courses/" + courseSlug + "/modules/";
    var h := ClassesPrefix(courseSlug, moduleOrder);
    var link := PlayHref(courseSlug, moduleOrder, classOrder);
    assert h == course + (IntToString(moduleOrder) + "/classes/");
    assert h[..|course|] == course;
    assert link == h + IntToString(classOrder);
    assert link[..|course|] == h[..|course|];
  }

  /** Two classes of one module get the same play link only when their
      `order` is the same. */
  lemma PlayHrefInjective(courseSlug: string, moduleOrder: int, o1: int, o2: int)
    ensures PlayHref(courseSlug, moduleOrder, o1) == PlayHref(courseSlug, moduleOrder, o2) ==> o1 == o2
  {
    var head := ClassesPrefix(courseSlug, moduleOrder);
    if PlayHref(courseSlug, moduleOrder, o1) == PlayHref(courseSlug, moduleOrder, o2) {
      assert IntToString(o1) == (head + IntToString(o1))[|head|..];
      assert IntToString(o2) == (head + IntToString(o2))[|head|..];
      IntToStringInjective(o1, o2);
    }
  }

  /** The right-hand control of a class row. */
  datatype Control = Play(href: string) | Locked(reason: string)

  function ClassControl(session: Option<Session>, classItem: SectionClass, courseSlug: string, moduleOrder: int, isEnrolled: bool): (c: Control)
    ensures c.Play? <==> CanAccess(session, classItem, isEnrolled)
    ensures c.Play? ==> c.href == PlayHref(courseSlug, moduleOrder, classItem.order)
    ensures c.Locked? ==> (c.reason == "Login required" <==> session.None?)
  {
    if CanAccess(session, classItem, isEnrolled) then Play(PlayHref(courseSlug, moduleOrder, classItem.order))
    else Locked(LockLabel(session))
  }

  /** `classItem.topics?.length || 0` */
  function TopicsCount(classItem: SectionClass): (n: nat)
    ensures classItem.topics.None? ==> n == 0
    ensures classItem.topics.Some? ==> n == |classItem.topics.value|
  {
    match classItem.topics
    case None => 0
    case Some(ts) => |ts|
  }

  /** The topics label is shown iff the class has at least one topic. */
  predicate ShowTopicsLabel(classItem: SectionClass) {
    TopicsCount(classItem) > 0
  }

  /** An absent topic list and an empty one both hide the label. */
  lemma TopicsLabelIff(classItem: SectionClass)
    ensures ShowTopicsLabel(classItem) <==> classItem.topics.Some? && |classItem.topics.value| > 0
  {
  }

  function OrderOf(c: SectionClass): int { c.order }

  /** `module.classes?.sort((a, b) => a.order - b.order) || []`: the
      module's own array is sorted, and it is what is displayed. */
  method SortedClasses(classes: array?<SectionClass>) returns (shown: seq<SectionClass>)
    modifies classes
    ensures classes == null ==> shown == []
    ensures classes != null ==> shown == classes[..]
    ensures classes != null ==> multiset(shown) == old(multiset(classes[..]))
    ensures Sorting.SortedBy(shown, OrderOf)
    ensures ShowEmptyMessage(shown) <==> classes == null || classes.Length == 0
  {
    if classes == null {
      shown := [];
    } else {
      Sorting.SortByKey(classes, OrderOf);
      shown := classes[..];
    }
  }

  /** The "No classes available" message appears iff nothing is displayed. */
  predicate ShowEmptyMessage(shown: seq<SectionClass>) {
    |shown| == 0
  }
}
