/** The CMS response shapes and `transformers` (src/lib/types.ts): every
    entity arrives as `{id, attributes}` with relations nested as
    `{data: [...]}` (collections) or `{data: entity | null}` (single), and the
    transformers flatten a course -> module -> class -> topic tree into
    plain records. */
module CmsTypes {
  import opened Common

  datatype Collection<T> = Collection(data: seq<T>)
  datatype Single<T> = Single(data: Option<T>)

  datatype VideoType = Mp4 | Youtube | Vimeo
  datatype Level = Beginner | Intermediate | Advanced

  datatype MediaAttributes = MediaAttributes(
    name: string, alternativeText: Option<string>, width: Option<int>, height: Option<int>,
    hash: string, mime: string, url: string)
  datatype Media = Media(id: int, attributes: MediaAttributes)

  datatype TopicAttributes = TopicAttributes(
    title: string, description: Option<string>, orderIndex: int,
    createdAt: string, updatedAt: string, publishedAt: Option<string>)
  datatype Topic = Topic(id: int, attributes: TopicAttributes)

  datatype ClassAttributes = ClassAttributes(
    title: string, slug: string, description: Option<string>, videoUrl: Option<string>,
    videoType: Option<VideoType>, duration: Option<string>, orderIndex: int, isFreePreview: bool,
    createdAt: string, updatedAt: string, publishedAt: Option<string>,
    topics: Option<Collection<Topic>>, parentModule: Option<Single<Module>>)
  datatype Class = Class(id: int, attributes: ClassAttributes)

  datatype ModuleAttributes = ModuleAttributes(
    title: string, description: Option<string>, orderIndex: int,
    createdAt: string, updatedAt: string, publishedAt: Option<string>,
    classes: Option<Collection<Class>>, course: Option<Single<Course>>)
  datatype Module = Module(id: int, attributes: ModuleAttributes)

  datatype CourseAttributes = CourseAttributes(
    title: string, slug: string, description: string, level: Level, isPublic: bool,
    price: Option<real>, discountPrice: Option<real>, estimatedDuration: Option<string>,
    createdAt: string, updatedAt: string, publishedAt: Option<string>,
    thumbnail: Option<Single<Media>>, modules: Option<Collection<Module>>)
  datatype Course = Course(id: int, attributes: CourseAttributes)

  // The flattened records
  datatype FlatTopic = FlatTopic(
    id: int, title: string, description: Option<string>, orderIndex: int,
    createdAt: string, updatedAt: string)
  datatype FlatClass = FlatClass(
    id: int, title: string, slug: string, description: Option<string>, videoUrl: Option<string>,
    videoType: Option<VideoType>, duration: Option<string>, orderIndex: int, isFreePreview: bool,
    createdAt: string, updatedAt: string, topics: seq<FlatTopic>)
  datatype FlatModule = FlatModule(
    id: int, title: string, description: Option<string>, orderIndex: int,
    createdAt: string, updatedAt: string, classes: seq<FlatClass>)
  datatype Thumbnail = Thumbnail(url: string, alternativeText: Option<string>, width: Option<int>, height: Option<int>)
  datatype FlatCourse = FlatCourse(
    id: int, title: string, slug: string, description: string, level: Level, isPublic: bool,
    price: Option<real>, discountPrice: Option<real>, estimatedDuration: Option<string>,
    createdAt: string, updatedAt: string, thumbnail: Option<Thumbnail>, modules: seq<FlatModule>)

  /** `relation?.data` of a collection, or [] when the relation is absent. */
  function Items<T>(relation: Option<Collection<T>>): seq<T> {
    match relation
    case None => []
    case Some(c) => c.data
  }

  /** `transformers.topic`: copies the fields, drops `publishedAt`. */
  function FlattenTopic(topic: Topic): (r: FlatTopic)
    ensures r.id == topic.id && r.title == topic.attributes.title
    ensures r.description == topic.attributes.description && r.orderIndex == topic.attributes.orderIndex
    ensures r.createdAt == topic.attributes.createdAt && r.updatedAt == topic.attributes.updatedAt
  {
    var a := topic.attributes;
    FlatTopic(topic.id, a.title, a.description, a.orderIndex, a.createdAt, a.updatedAt)
  }

  /** Two topics that differ only in `publishedAt` flatten alike. */
  lemma FlattenTopicDropsPublishedAt(topic: Topic, p: Option<string>)
    ensures FlattenTopic(Topic(topic.id, topic.attributes.(publishedAt := p))) == FlattenTopic(topic)
  {
  }

  /** `topics.data.map(transformers.topic)`: same length, element-wise, in order. */
  function FlattenTopics(topics: seq<Topic>): (r: seq<FlatTopic>)
    ensures |r| == |topics|
    ensures forall i :: 0 <= i < |topics| ==> r[i] == FlattenTopic(topics[i])
  {
    seq(|topics|, i requires 0 <= i < |topics| => FlattenTopic(topics[i]))
  }

  /** `transformers.class`: the topics relation is mapped (or []); the
      `module` back-relation is not followed. */
  function FlattenClass(c: Class): (r: FlatClass)
    ensures r.id == c.id
    ensures r.title == c.attributes.title && r.slug == c.attributes.slug && r.description == c.attributes.description
    ensures r.videoUrl == c.attributes.videoUrl && r.videoType == c.attributes.videoType && r.duration == c.attributes.duration
    ensures r.orderIndex == c.attributes.orderIndex && r.isFreePreview == c.attributes.isFreePreview
    ensures r.createdAt == c.attributes.createdAt && r.updatedAt == c.attributes.updatedAt
    ensures r.topics == FlattenTopics(Items(c.attributes.topics))
    ensures c.attributes.topics.None? ==> r.topics == []
  {
    var a := c.attributes;
    FlatClass(c.id, a.title, a.slug, a.description, a.videoUrl, a.videoType, a.duration,
              a.orderIndex, a.isFreePreview, a.createdAt, a.updatedAt,
              FlattenTopics(Items(a.topics)))
  }

  function FlattenClasses(classes: seq<Class>): (r: seq<FlatClass>)
    ensures |r| == |classes|
    ensures forall i :: 0 <= i < |classes| ==> r[i] == FlattenClass(classes[i])
  {
    seq(|classes|, i requires 0 <= i < |classes| => FlattenClass(classes[i]))
  }

  /** `transformers.module`: the classes relation is mapped (or []); the
      `course` back-relation is not followed. */
  function FlattenModule(m: Module): (r: FlatModule)
    ensures r.id == m.id
    ensures r.title == m.attributes.title && r.description == m.attributes.description && r.orderIndex == m.attributes.orderIndex
    ensures r.createdAt == m.attributes.createdAt && r.updatedAt == m.attributes.updatedAt
    ensures r.classes == FlattenClasses(Items(m.attributes.classes))
  {
    var a := m.attributes;
    FlatModule(m.id, a.title, a.description, a.orderIndex, a.createdAt, a.updatedAt,
               FlattenClasses(Items(a.classes)))
  }

  function FlattenModules(modules: seq<Module>): (r: seq<FlatModule>)
    ensures |r| == |modules|
    ensures forall i :: 0 <= i < |modules| ==> r[i] == FlattenModule(modules[i])
  {
    seq(|modules|, i requires 0 <= i < |modules| => FlattenModule(modules[i]))
  }

  /** The thumbnail: defined iff the media relation has data. */
  function FlattenThumbnail(thumbnail: Option<Single<Media>>): (r: Option<Thumbnail>)
    ensures r.Some? <==> thumbnail.Some? && thumbnail.value.data.Some?
    ensures r.Some? ==>
      var a := thumbnail.value.data.value.attributes;
      r.value == Thumbnail(a.url, a.alternativeText, a.width, a.height)
  {
    if thumbnail.Some? && thumbnail.value.data.Some? then
      var a := thumbnail.value.data.value.attributes;
      Some(Thumbnail(a.url, a.alternativeText, a.width, a.height))
    else None
  }

  /** `transformers.course` */
  function FlattenCourse(c: Course): (r: FlatCourse)
    ensures r.id == c.id && r.slug == c.attributes.slug && r.title == c.attributes.title
    ensures r.description == c.attributes.description && r.level == c.attributes.level && r.isPublic == c.attributes.isPublic
    ensures r.price == c.attributes.price && r.discountPrice == c.attributes.discountPrice
    ensures r.estimatedDuration == c.attributes.estimatedDuration
    ensures r.createdAt == c.attributes.createdAt && r.updatedAt == c.attributes.updatedAt
    ensures r.thumbnail == FlattenThumbnail(c.attributes.thumbnail)
    ensures r.modules == FlattenModules(Items(c.attributes.modules))
  {
    var a := c.attributes;
    FlatCourse(c.id, a.title, a.slug, a.description, a.level, a.isPublic, a.price,
               a.discountPrice, a.estimatedDuration, a.createdAt, a.updatedAt,
               FlattenThumbnail(a.thumbnail), FlattenModules(Items(a.modules)))
  }

  /** The back-relations (a class's `module`, a module's `course`) are not
      followed: whatever they hold, the flattened record is the same. */
  lemma BackRelationsIgnored(c: Class, m: Module, pm: Option<Single<Module>>, pc: Option<Single<Course>>)
    ensures FlattenClass(Class(c.id, c.attributes.(parentModule := pm))) == FlattenClass(c)
    ensures FlattenModule(Module(m.id, m.attributes.(course := pc))) == FlattenModule(m)
  {
  }

  // ---------------------------------------------------------------------
  // Preservation: ids, order, counts

  function Ids<T>(xs: seq<T>, id: T -> int): (r: seq<int>)
    ensures |r| == |xs|
    ensures forall i :: 0 <= i < |xs| ==> r[i] == id(xs[i])
  {
    seq(|xs|, i requires 0 <= i < |xs| => id(xs[i]))
  }

  /** The flattened children carry the source ids, in the source order, at
      every level of the tree. */
  lemma IdsPreserved(c: Course)
    ensures Ids(FlattenCourse(c).modules, (m: FlatModule) => m.id) == Ids(Items(c.attributes.modules), (m: Module) => m.id)
    ensures forall i :: 0 <= i < |Items(c.attributes.modules)| ==>
      var m := Items(c.attributes.modules)[i];
      Ids(FlattenCourse(c).modules[i].classes, (k: FlatClass) => k.id) == Ids(Items(m.attributes.classes), (k: Class) => k.id)
  {
  }

  /** The source's topic count: all topics of all classes of all modules. */
  function SourceTopics(modules: seq<Module>): nat {
    if |modules| == 0 then 0
    else SourceClassTopics(Items(modules[0].attributes.classes)) + SourceTopics(modules[1..])
  }

  function SourceClassTopics(classes: seq<Class>): nat {
    if |classes| == 0 then 0
    else |Items(classes[0].attributes.topics)| + SourceClassTopics(classes[1..])
  }

  /** The flattened topic count. */
  function FlatTopics(modules: seq<FlatModule>): nat {
    if |modules| == 0 then 0
    else FlatClassTopics(modules[0].classes) + FlatTopics(modules[1..])
  }

  function FlatClassTopics(classes: seq<FlatClass>): nat {
    if |classes| == 0 then 0
    else |classes[0].topics| + FlatClassTopics(classes[1..])
  }

  lemma {:induction false} ClassTopicsPreserved(classes: seq<Class>)
    ensures FlatClassTopics(FlattenClasses(classes)) == SourceClassTopics(classes)
    decreases |classes|
  {
    if |classes| > 0 {
      assert FlattenClasses(classes)[1..] == FlattenClasses(classes[1..]);
      ClassTopicsPreserved(classes[1..]);
    }
  }

  lemma {:induction false} ModuleTopicsPreserved(modules: seq<Module>)
    ensures FlatTopics(FlattenModules(modules)) == SourceTopics(modules)
    decreases |modules|
  {
    if |modules| > 0 {
      assert FlattenModules(modules)[1..] == FlattenModules(modules[1..]);
      ClassTopicsPreserved(Items(modules[0].attributes.classes));
      ModuleTopicsPreserved(modules[1..]);
    }
  }

  /** No transformer sorts or filters: a flattened course has as many topics
      as the source course. */
  lemma TopicCountPreserved(c: Course)
    ensures FlatTopics(FlattenCourse(c).modules) == SourceTopics(Items(c.attributes.modules))
  {
    ModuleTopicsPreserved(Items(c.attributes.modules));
  }
}
