/**
 * The course-authoring record and its reducers. The reducers validate
 * nothing: unknown ids are silent no-ops, reordering installs any sequence,
 * and a lesson update spreads every field it is given.
 */
module CourseFormSlice {
  import opened Wrappers
  import opened Seqs
  import opened Api

  datatype LessonType = Video | Document | Notes

  datatype Lesson = Lesson(
    id: string,
    title: string,
    lessonType: LessonType,
    content: string,
    duration: Option<real>,
    fileUrl: Option<string>,
    fileName: Option<string>)

  datatype Module = Module(id: string, title: string, lessons: seq<Lesson>)

  /** `'Beginner' | 'Intermediate' | 'Expert' | ''`. */
  datatype Level = Beginner | Intermediate | Expert | NoLevel

  datatype Status = Draft | Submitted

  datatype CourseFormState = CourseFormState(
    // basic information
    title: string,
    subtitle: string,
    description: string,
    category: string,
    level: Level,
    language: string,
    tags: seq<string>,
    // media
    thumbnailUrl: string,
    thumbnailFile: Option<FileHandle>,
    promoVideoUrl: string,
    promoVideoFile: Option<FileHandle>,
    // curriculum
    modules: seq<Module>,
    // pricing
    isPaid: bool,
    price: real,
    discountPrice: Option<real>,
    // SEO
    slug: string,
    metaTitle: string,
    metaDescription: string,
    // additional information
    learningObjectives: seq<string>,
    targetAudience: string,
    prerequisites: string,
    certificateEnabled: bool,
    // drip content
    dripEnabled: bool,
    dripInterval: int,
    // status and navigation
    status: Status,
    currentStep: int)

  function InitialState(): CourseFormState {
    CourseFormState(
      "", "", "", "", NoLevel, "English", [],
      "", None, "", None,
      [],
      false, 0.0, None,
      "", "", "",
      [""], "", "", true,
      false, 7,
      Draft, 0)
  }

  // ---------------------------------------------------------------------
  // Partial<CourseFormState>: a payload naming some keys, spread over state
  // ---------------------------------------------------------------------

  /** The keys of the record. */
  datatype Field =
    | Title | Subtitle | Description | Category | LevelField | Language | Tags
    | ThumbnailUrl | ThumbnailFile | PromoVideoUrl | PromoVideoFile
    | Modules
    | IsPaid | Price | DiscountPrice
    | Slug | MetaTitle | MetaDescription
    | LearningObjectives | TargetAudience | Prerequisites | CertificateEnabled
    | DripEnabled | DripInterval
    | StatusField | CurrentStep

  /** A value stored under a key. */
  datatype Value =
    | Text(text: string)
    | Flag(flag: bool)
    | Amount(amount: real)
    | OptionalAmount(optionalAmount: Option<real>)
    | Count(count: int)
    | TextList(textList: seq<string>)
    | Attachment(attachment: Option<FileHandle>)
    | Curriculum(curriculum: seq<Module>)
    | LevelValue(levelValue: Level)
    | StatusValue(statusValue: Status)

  /** One `key: value` entry of a payload object. */
  datatype Write = Write(key: Field, value: Value)

  /** The value under key `k`. */
  function Read(s: CourseFormState, k: Field): Value {
    match k
    case Title => Text(s.title)
    case Subtitle => Text(s.subtitle)
    case Description => Text(s.description)
    case Category => Text(s.category)
    case LevelField => LevelValue(s.level)
    case Language => Text(s.language)
    case Tags => TextList(s.tags)
    case ThumbnailUrl => Text(s.thumbnailUrl)
    case ThumbnailFile => Attachment(s.thumbnailFile)
    case PromoVideoUrl => Text(s.promoVideoUrl)
    case PromoVideoFile => Attachment(s.promoVideoFile)
    case Modules => Curriculum(s.modules)
    case IsPaid => Flag(s.isPaid)
    case Price => Amount(s.price)
    case DiscountPrice => OptionalAmount(s.discountPrice)
    case Slug => Text(s.slug)
    case MetaTitle => Text(s.metaTitle)
    case MetaDescription => Text(s.metaDescription)
    case LearningObjectives => TextList(s.learningObjectives)
    case TargetAudience => Text(s.targetAudience)
    case Prerequisites => Text(s.prerequisites)
    case CertificateEnabled => Flag(s.certificateEnabled)
    case DripEnabled => Flag(s.dripEnabled)
    case DripInterval => Count(s.dripInterval)
    case StatusField => StatusValue(s.status)
    case CurrentStep => Count(s.currentStep)
  }

  /** The write has the type the record declares for its key. */
  predicate Fits(w: Write) {
    match w.key
    case Title | Subtitle | Description | Category | Language
      | ThumbnailUrl | PromoVideoUrl | Slug | MetaTitle | MetaDescription
      | TargetAudience | Prerequisites => w.value.Text?
    case LevelField => w.value.LevelValue?
    case Tags | LearningObjectives => w.value.TextList?
    case ThumbnailFile | PromoVideoFile => w.value.Attachment?
    case Modules => w.value.Curriculum?
    case IsPaid | CertificateEnabled | DripEnabled => w.value.Flag?
    case Price => w.value.Amount?
    case DiscountPrice => w.value.OptionalAmount?
    case DripInterval | CurrentStep => w.value.Count?
    case StatusField => w.value.StatusValue?
  }

  predicate PatchFits(p: seq<Write>) {
    forall j :: 0 <= j < |p| ==> Fits(p[j])
  }

  /** `{ ...s, [k]: v }`: key k now holds v, every other key is as before. */
  function ApplyWrite(s: CourseFormState, w: Write): (r: CourseFormState)
    requires Fits(w)
    ensures Read(r, w.key) == w.value
    ensures forall k :: k != w.key ==> Read(r, k) == Read(s, k)
  {
    var v := w.value;
    match w.key
    case Title => s.(title := v.text)
    case Subtitle => s.(subtitle := v.text)
    case Description => s.(description := v.text)
    case Category => s.(category := v.text)
    case LevelField => s.(level := v.levelValue)
    case Language => s.(language := v.text)
    case Tags => s.(tags := v.textList)
    case ThumbnailUrl => s.(thumbnailUrl := v.text)
    case ThumbnailFile => s.(thumbnailFile := v.attachment)
    case PromoVideoUrl => s.(promoVideoUrl := v.text)
    case PromoVideoFile => s.(promoVideoFile := v.attachment)
    case Modules => s.(modules := v.curriculum)
    case IsPaid => s.(isPaid := v.flag)
    case Price => s.(price := v.amount)
    case DiscountPrice => s.(discountPrice := v.optionalAmount)
    case Slug => s.(slug := v.text)
    case MetaTitle => s.(metaTitle := v.text)
    case MetaDescription => s.(metaDescription := v.text)
    case LearningObjectives => s.(learningObjectives := v.textList)
    case TargetAudience => s.(targetAudience := v.text)
    case Prerequisites => s.(prerequisites := v.text)
    case CertificateEnabled => s.(certificateEnabled := v.flag)
    case DripEnabled => s.(dripEnabled := v.flag)
    case DripInterval => s.(dripInterval := v.count)
    case StatusField => s.(status := v.statusValue)
    case CurrentStep => s.(currentStep := v.count)
  }

  /** The value a payload gives key k (the last entry wins, as in an object literal). */
  function Lookup(p: seq<Write>, k: Field): (r: Option<Value>)
    ensures r.None? <==> forall j :: 0 <= j < |p| ==> p[j].key != k
    ensures r.Some? ==> exists j :: 0 <= j < |p| && p[j] == Write(k, r.value)
  {
    if p == [] then None
    else if Lookup(p[1..], k).Some? then Lookup(p[1..], k)
    else if p[0].key == k then Some(p[0].value)
    else None
  }

  /** `{ ...s, ...payload }`: the payload's keys are overwritten, the others kept. */
  function ApplyPatch(s: CourseFormState, p: seq<Write>): (r: CourseFormState)
    requires PatchFits(p)
    ensures forall k :: Read(r, k) == Lookup(p, k).GetOr(Read(s, k))
    decreases |p|
  {
    if p == [] then s else ApplyPatch(ApplyWrite(s, p[0]), p[1..])
  }

  // ---------------------------------------------------------------------
  // The curriculum: lookups by id and in-place edits of the found entry
  // ---------------------------------------------------------------------

  function IsModule(id: string): Module -> bool {
    (m: Module) => m.id == id
  }

  function IsNotModule(id: string): Module -> bool {
    (m: Module) => m.id != id
  }

  function IsLesson(id: string): Lesson -> bool {
    (l: Lesson) => l.id == id
  }

  function IsNotLesson(id: string): Lesson -> bool {
    (l: Lesson) => l.id != id
  }

  function ModuleIndex(ms: seq<Module>, id: string): int {
    FindIndex(ms, IsModule(id))
  }

  function LessonIndex(ls: seq<Lesson>, id: string): int {
    FindIndex(ls, IsLesson(id))
  }

  ghost predicate HasModule(ms: seq<Module>, id: string) {
    exists j :: 0 <= j < |ms| && ms[j].id == id
  }

  /** `findIndex` by id followed by an assignment to that entry, if any. */
  function EditModule(ms: seq<Module>, id: string, f: Module -> Module): (r: seq<Module>)
    ensures |r| == |ms|
    ensures !HasModule(ms, id) ==> r == ms
    ensures HasModule(ms, id) ==>
      var i := ModuleIndex(ms, id);
      0 <= i && ms[i].id == id && r[i] == f(ms[i])
      && (forall j :: 0 <= j < i ==> ms[j].id != id)
      && (forall j :: 0 <= j < |ms| && j != i ==> r[j] == ms[j])
  {
    var i := ModuleIndex(ms, id);
    if i == -1 then ms else ms[i := f(ms[i])]
  }

  /** Same for a lesson within one module's lessons. */
  function EditLesson(ls: seq<Lesson>, id: string, f: Lesson -> Lesson): (r: seq<Lesson>)
    ensures |r| == |ls|
    ensures (forall j :: 0 <= j < |ls| ==> ls[j].id != id) ==> r == ls
    ensures (exists j :: 0 <= j < |ls| && ls[j].id == id) ==>
      var i := LessonIndex(ls, id);
      0 <= i && ls[i].id == id && r[i] == f(ls[i])
      && (forall j :: 0 <= j < |ls| && j != i ==> r[j] == ls[j])
  {
    var i := LessonIndex(ls, id);
    if i == -1 then ls else ls[i := f(ls[i])]
  }

  function WithoutModule(ms: seq<Module>, id: string): seq<Module> {
    Filter(ms, IsNotModule(id))
  }

  function WithoutLesson(ls: seq<Lesson>, id: string): seq<Lesson> {
    Filter(ls, IsNotLesson(id))
  }

  /** `Partial<Lesson>`: the fields an update supplies. */
  datatype LessonPatch = LessonPatch(
    id: Option<string>,
    title: Option<string>,
    lessonType: Option<LessonType>,
    content: Option<string>,
    duration: Option<real>,
    fileUrl: Option<string>,
    fileName: Option<string>)

  /** `{ ...l, ...u }`. */
  function MergeLesson(l: Lesson, u: LessonPatch): Lesson {
    Lesson(
      u.id.GetOr(l.id),
      u.title.GetOr(l.title),
      u.lessonType.GetOr(l.lessonType),
      u.content.GetOr(l.content),
      if u.duration.Some? then u.duration else l.duration,
      if u.fileUrl.Some? then u.fileUrl else l.fileUrl,
      if u.fileName.Some? then u.fileName else l.fileName)
  }

  // ---------------------------------------------------------------------
  // The reducers
  // ---------------------------------------------------------------------

  datatype Action =
    | UpdateBasicInfo(patch: seq<Write>)
    | SetThumbnail(url: string, file: Option<FileHandle>)
    | SetPromoVideo(url: string, file: Option<FileHandle>)
    | AddModule(newModule: Module)
    | UpdateModule(moduleId: string, title: string)
    | DeleteModule(moduleId: string)
    | ReorderModules(order: seq<Module>)
    | AddLesson(moduleId: string, lesson: Lesson)
    | UpdateLesson(moduleId: string, lessonId: string, updates: LessonPatch)
    | DeleteLesson(moduleId: string, lessonId: string)
    | UpdateTags(tags: seq<string>)
    | AddLearningObjective(objective: string)
    | UpdateLearningObjective(index: int, value: string)
    | DeleteLearningObjective(index: int)
    | SetCurrentStep(step: int)
    | SetCourseStatus(status: Status)
    | ResetCourseForm

  /** The payload is well typed (the TypeScript compiler's guarantee). */
  predicate Typed(a: Action) {
    a.UpdateBasicInfo? ==> PatchFits(a.patch)
  }

  /** The state after dispatching `a`. */
  function Reduce(s: CourseFormState, a: Action): CourseFormState
    requires Typed(a)
  {
    match a
    case UpdateBasicInfo(p) => ApplyPatch(s, p)
    case SetThumbnail(url, file) => s.(thumbnailUrl := url, thumbnailFile := file)
    case SetPromoVideo(url, file) => s.(promoVideoUrl := url, promoVideoFile := file)
    case AddModule(m) => s.(modules := s.modules + [m])
    case UpdateModule(id, t) => s.(modules := EditModule(s.modules, id, (m: Module) => m.(title := t)))
    case DeleteModule(id) => s.(modules := WithoutModule(s.modules, id))
    case ReorderModules(order) => s.(modules := order)
    case AddLesson(id, l) =>
      s.(modules := EditModule(s.modules, id, (m: Module) => m.(lessons := m.lessons + [l])))
    case UpdateLesson(mid, lid, u) =>
      s.(modules := EditModule(s.modules, mid,
           (m: Module) => m.(lessons := EditLesson(m.lessons, lid, (l: Lesson) => MergeLesson(l, u)))))
    case DeleteLesson(mid, lid) =>
      s.(modules := EditModule(s.modules, mid, (m: Module) => m.(lessons := WithoutLesson(m.lessons, lid))))
    case UpdateTags(ts) => s.(tags := ts)
    case AddLearningObjective(o) => s.(learningObjectives := s.learningObjectives + [o])
    case UpdateLearningObjective(i, v) =>
      if 0 <= i < |s.learningObjectives| then s.(learningObjectives := s.learningObjectives[i := v]) else s
    case DeleteLearningObjective(i) => s.(learningObjectives := RemoveIndex(s.learningObjectives, i))
    case SetCurrentStep(n) => s.(currentStep := n)
    case SetCourseStatus(st) => s.(status := st)
    case ResetCourseForm => InitialState()
  }

  // ---------------------------------------------------------------------
  // Guarantees kept by the component handlers (no reducer checks them)
  // ---------------------------------------------------------------------

  ghost predicate DistinctModuleIds(ms: seq<Module>) {
    forall i, j :: 0 <= i < j < |ms| ==> ms[i].id != ms[j].id
  }

  /**
   * Tags without repeats, non-negative prices, a drip interval of at least a
   * day, a step index inside the wizard, and distinct module ids.
   */
  ghost predicate Guarded(s: CourseFormState) {
    && Distinct(s.tags)
    && s.price >= 0.0
    && (s.discountPrice.Some? ==> s.discountPrice.value >= 0.0)
    && s.dripInterval >= 1
    && 0 <= s.currentStep <= 4
    && DistinctModuleIds(s.modules)
  }

  // ---------------------------------------------------------------------
  // Properties of the reducers
  // ---------------------------------------------------------------------

  /**
   * deleteModule keeps exactly the modules with another id; an unknown id
   * leaves the curriculum as it was.
   */
  lemma DeleteModuleKeepsOthers(s: CourseFormState, id: string)
    ensures var r := Reduce(s, DeleteModule(id));
      && r == s.(modules := r.modules)
      && (forall m :: m in r.modules <==> m in s.modules && m.id != id)
      && (!HasModule(s.modules, id) ==> r == s)
  {
    if !HasModule(s.modules, id) {
      FilterKeepsAll(s.modules, IsNotModule(id));
    }
  }

  /** deleteModule keeps the relative order of the modules it keeps. */
  lemma DeleteModuleKeepsOrder(a: seq<Module>, b: seq<Module>, id: string)
    ensures WithoutModule(a + b, id) == WithoutModule(a, id) + WithoutModule(b, id)
  {
    FilterConcat(a, b, IsNotModule(id));
  }

  /** Deleting a module that was just added under a new id restores the state. */
  lemma AddThenDeleteModule(s: CourseFormState, m: Module)
    requires !HasModule(s.modules, m.id)
    ensures Reduce(Reduce(s, AddModule(m)), DeleteModule(m.id)) == s
  {
    var p := IsNotModule(m.id);
    FilterConcat(s.modules, [m], p);
    FilterKeepsAll(s.modules, p);
    assert Filter([m], p) == [];
  }

  /**
   * Once a module is deleted, every lesson action and every rename addressed
   * to it is a silent no-op: its lessons are unreachable.
   */
  lemma DeletedModuleIsUnreachable(s: CourseFormState, id: string, lessonId: string,
                                   u: LessonPatch, l: Lesson, t: string)
    ensures var d := Reduce(s, DeleteModule(id));
      && Reduce(d, UpdateLesson(id, lessonId, u)) == d
      && Reduce(d, DeleteLesson(id, lessonId)) == d
      && Reduce(d, AddLesson(id, l)) == d
      && Reduce(d, UpdateModule(id, t)) == d
  {
    var d := Reduce(s, DeleteModule(id));
    assert !HasModule(d.modules, id) by {
      forall j | 0 <= j < |d.modules| ensures d.modules[j].id != id {
        assert d.modules[j] in d.modules;
      }
    }
  }

  /** The position of the first module with id `id`, when one exists. */
  lemma ModuleIndexAfterEdit(ms: seq<Module>, id: string, f: Module -> Module)
    requires HasModule(ms, id)
    requires f(ms[ModuleIndex(ms, id)]).id == id
    ensures HasModule(EditModule(ms, id, f), id)
    ensures ModuleIndex(EditModule(ms, id, f), id) == ModuleIndex(ms, id)
  {
    var i := ModuleIndex(ms, id);
    var r := EditModule(ms, id, f);
    assert r[i].id == id;
    var k := ModuleIndex(r, id);
    assert k != -1 by { assert IsModule(id)(r[i]); }
  }

  /** Removing the id of a lesson just appended under a new id restores the list. */
  lemma AppendThenWithoutLesson(ls: seq<Lesson>, l: Lesson)
    requires forall x :: x in ls ==> x.id != l.id
    ensures WithoutLesson(ls + [l], l.id) == ls
  {
    var p := IsNotLesson(l.id);
    FilterConcat(ls, [l], p);
    FilterKeepsAll(ls, p);
    assert Filter([l], p) == [];
  }

  /** The curriculum half of addLesson followed by deleteLesson. */
  lemma AddThenDeleteLessonModules(ms: seq<Module>, moduleId: string, l: Lesson)
    requires HasModule(ms, moduleId)
    requires forall x :: x in ms[ModuleIndex(ms, moduleId)].lessons ==> x.id != l.id
    ensures EditModule(EditModule(ms, moduleId, (m: Module) => m.(lessons := m.lessons + [l])),
                       moduleId, (m: Module) => m.(lessons := WithoutLesson(m.lessons, l.id))) == ms
  {
    var i := ModuleIndex(ms, moduleId);
    var append := (m: Module) => m.(lessons := m.lessons + [l]);
    var added := EditModule(ms, moduleId, append);
    ModuleIndexAfterEdit(ms, moduleId, append);
    AppendThenWithoutLesson(ms[i].lessons, l);
    var removed := EditModule(added, moduleId, (m: Module) => m.(lessons := WithoutLesson(m.lessons, l.id)));
    assert removed[i] == ms[i];
    assert removed == ms;
  }

  /**
   * addLesson appends to the first module with the given id and nothing
   * else; deleting the added lesson again (its id new in that module)
   * restores the state.
   */
  lemma AddThenDeleteLesson(s: CourseFormState, moduleId: string, l: Lesson)
    requires HasModule(s.modules, moduleId)
    requires forall x :: x in s.modules[ModuleIndex(s.modules, moduleId)].lessons ==> x.id != l.id
    ensures Reduce(Reduce(s, AddLesson(moduleId, l)), DeleteLesson(moduleId, l.id)) == s
  {
    AddThenDeleteLessonModules(s.modules, moduleId, l);
  }

  /**
   * updateLesson merges the update into the first matching lesson of the
   * first matching module, including a supplied `type`: the reducer does
   * not keep a lesson's type fixed.
   */
  lemma UpdateLessonMerges(s: CourseFormState, moduleId: string, lessonId: string, u: LessonPatch)
    requires HasModule(s.modules, moduleId)
    requires exists x :: x in s.modules[ModuleIndex(s.modules, moduleId)].lessons && x.id == lessonId
    ensures var i := ModuleIndex(s.modules, moduleId);
      var j := LessonIndex(s.modules[i].lessons, lessonId);
      var r := Reduce(s, UpdateLesson(moduleId, lessonId, u)).modules;
      && 0 <= j < |r[i].lessons|
      && r[i].lessons[j] == MergeLesson(s.modules[i].lessons[j], u)
      && (u.lessonType.Some? ==> r[i].lessons[j].lessonType == u.lessonType.value)
      && (forall k :: 0 <= k < |r| && k != i ==> r[k] == s.modules[k])
      && (forall k :: 0 <= k < |r[i].lessons| && k != j ==> r[i].lessons[k] == s.modules[i].lessons[k])
  {
    var i := ModuleIndex(s.modules, moduleId);
    var x :| x in s.modules[i].lessons && x.id == lessonId;
    var k :| 0 <= k < |s.modules[i].lessons| && s.modules[i].lessons[k] == x;
  }

  /** A lesson id not in the addressed module makes update and delete no-ops. */
  lemma UnknownLessonIsNoop(s: CourseFormState, moduleId: string, lessonId: string, u: LessonPatch)
    requires HasModule(s.modules, moduleId)
    requires forall x :: x in s.modules[ModuleIndex(s.modules, moduleId)].lessons ==> x.id != lessonId
    ensures Reduce(s, UpdateLesson(moduleId, lessonId, u)) == s
    ensures Reduce(s, DeleteLesson(moduleId, lessonId)) == s
  {
    var i := ModuleIndex(s.modules, moduleId);
    var ls := s.modules[i].lessons;
    forall j | 0 <= j < |ls| ensures ls[j].id != lessonId {
      assert ls[j] in ls;
    }
    FilterKeepsAll(ls, IsNotLesson(lessonId));
    assert s.modules[i := s.modules[i].(lessons := ls)] == s.modules;
  }

  /**
   * deleteLearningObjective removes exactly position i and shifts the later
   * entries down; an index outside the list leaves it unchanged.
   */
  lemma DeleteObjectiveCompacts(s: CourseFormState, i: int)
    ensures var r := Reduce(s, DeleteLearningObjective(i)).learningObjectives;
      var o := s.learningObjectives;
      && (0 <= i < |o| ==>
            && |r| == |o| - 1
            && (forall j :: 0 <= j < i ==> r[j] == o[j])
            && (forall j :: i <= j < |r| ==> r[j] == o[j + 1]))
      && (!(0 <= i < |o|) ==> r == o)
  {
  }

  /** Deleting a module never creates a repeated module id. */
  lemma {:induction false} WithoutModuleKeepsDistinctIds(ms: seq<Module>, id: string)
    requires DistinctModuleIds(ms)
    ensures DistinctModuleIds(WithoutModule(ms, id))
  {
    if ms != [] {
      var tail := ms[1..];
      assert DistinctModuleIds(tail) by {
        forall i, j | 0 <= i < j < |tail| ensures tail[i].id != tail[j].id {
          assert tail[i] == ms[i + 1] && tail[j] == ms[j + 1];
        }
      }
      WithoutModuleKeepsDistinctIds(tail, id);
      var rest := WithoutModule(tail, id);
      forall x | x in rest ensures x.id != ms[0].id {
        var k :| 0 <= k < |tail| && tail[k] == x;
        assert tail[k] == ms[k + 1];
      }
      var head := if IsNotModule(id)(ms[0]) then [ms[0]] else [];
      assert WithoutModule(ms, id) == head + rest;
      forall i, j | 0 <= i < j < |head + rest| ensures (head + rest)[i].id != (head + rest)[j].id {
        if i < |head| {
          assert (head + rest)[j] in rest;
        } else {
          assert (head + rest)[i] == rest[i - |head|] && (head + rest)[j] == rest[j - |head|];
        }
      }
    }
  }

  /**
   * The curriculum reducers keep module ids distinct, provided a new module
   * brings a new id (ids come from a fresh-id source).
   */
  lemma CurriculumReducersKeepDistinctIds(s: CourseFormState, a: Action)
    requires DistinctModuleIds(s.modules)
    requires a.AddModule? || a.UpdateModule? || a.DeleteModule? || a.AddLesson? || a.UpdateLesson? || a.DeleteLesson?
    requires a.AddModule? ==> !HasModule(s.modules, a.newModule.id)
    ensures DistinctModuleIds(Reduce(s, a).modules)
  {
    match a
    case AddModule(m) =>
      var r := s.modules + [m];
      forall i, j | 0 <= i < j < |r| ensures r[i].id != r[j].id {
        if j == |s.modules| {
          assert r[i] == s.modules[i];
        }
      }
    case DeleteModule(id) => WithoutModuleKeepsDistinctIds(s.modules, id);
    case UpdateModule(id, t) => EditKeepsDistinctIds(s.modules, id, (m: Module) => m.(title := t));
    case AddLesson(id, l) => EditKeepsDistinctIds(s.modules, id, (m: Module) => m.(lessons := m.lessons + [l]));
    case UpdateLesson(mid, lid, u) =>
      EditKeepsDistinctIds(s.modules, mid,
        (m: Module) => m.(lessons := EditLesson(m.lessons, lid, (l: Lesson) => MergeLesson(l, u))));
    case DeleteLesson(mid, lid) =>
      EditKeepsDistinctIds(s.modules, mid, (m: Module) => m.(lessons := WithoutLesson(m.lessons, lid)));
  }

  /** An edit that keeps each module's id keeps the ids distinct. */
  lemma EditKeepsDistinctIds(ms: seq<Module>, id: string, f: Module -> Module)
    requires DistinctModuleIds(ms)
    requires forall m :: f(m).id == m.id
    ensures DistinctModuleIds(EditModule(ms, id, f))
  {
    var r := EditModule(ms, id, f);
    forall i, j | 0 <= i < j < |r| ensures r[i].id != r[j].id {
      assert r[i].id == ms[i].id && r[j].id == ms[j].id;
    }
  }

  /** The keys whose values the component guards constrain. */
  predicate GuardedKey(k: Field) {
    k == Tags || k == Price || k == DiscountPrice || k == DripInterval || k == CurrentStep || k == Modules
  }

  /** A key no write of the payload names keeps its value. */
  lemma UntouchedKey(s: CourseFormState, p: seq<Write>, k: Field)
    requires PatchFits(p)
    requires forall j :: 0 <= j < |p| ==> p[j].key != k
    ensures Read(ApplyPatch(s, p), k) == Read(s, k)
  {
  }

  /** A one-key payload is the write of that key alone. */
  lemma OneKeyPatch(s: CourseFormState, w: Write)
    requires Fits(w)
    ensures ApplyPatch(s, [w]) == ApplyWrite(s, w)
  {
    assert [w][1..] == [];
  }

  /** The guarantees depend only on the values of the guarded keys. */
  lemma GuardedByGuardedKeys(s: CourseFormState, r: CourseFormState)
    requires forall k :: GuardedKey(k) ==> Read(r, k) == Read(s, k)
    requires Guarded(s)
    ensures Guarded(r)
  {
    assert r.tags == s.tags by { assert Read(r, Tags) == Read(s, Tags); }
    assert r.price == s.price by { assert Read(r, Price) == Read(s, Price); }
    assert r.discountPrice == s.discountPrice by { assert Read(r, DiscountPrice) == Read(s, DiscountPrice); }
    assert r.dripInterval == s.dripInterval by { assert Read(r, DripInterval) == Read(s, DripInterval); }
    assert r.currentStep == s.currentStep by { assert Read(r, CurrentStep) == Read(s, CurrentStep); }
    assert r.modules == s.modules by { assert Read(r, Modules) == Read(s, Modules); }
  }

  /** A payload that names no guarded key keeps the guarantees. */
  lemma UnguardedPatchKeepsGuarded(s: CourseFormState, p: seq<Write>)
    requires PatchFits(p)
    requires forall j :: 0 <= j < |p| ==> !GuardedKey(p[j].key)
    requires Guarded(s)
    ensures Guarded(ApplyPatch(s, p))
  {
    forall k | GuardedKey(k) ensures Read(ApplyPatch(s, p), k) == Read(s, k) {
      UntouchedKey(s, p, k);
    }
    GuardedByGuardedKeys(s, ApplyPatch(s, p));
  }

  /**
   * The record a new authoring session starts from, and a reset returns to:
   * one empty objective, no modules or tags, English, a free draft with a
   * weekly drip and the certificate on, at the first step; it meets the
   * guarantees.
   */
  lemma InitialStateGuarded()
    ensures Guarded(InitialState())
    ensures var s := InitialState();
      && s.learningObjectives == [""] && s.modules == [] && s.tags == []
      && s.language == "English" && s.level == NoLevel
      && s.dripInterval == 7 && !s.dripEnabled && s.certificateEnabled
      && !s.isPaid && s.price == 0.0 && s.discountPrice.None?
      && s.status == Draft && s.currentStep == 0
      && s.thumbnailFile.None? && s.promoVideoFile.None?
  {
  }

  // ---------------------------------------------------------------------
  // The store: the record updated in place, one method per reducer
  // ---------------------------------------------------------------------

  class CourseFormStore {
    var title: string
    var subtitle: string
    var description: string
    var category: string
    var level: Level
    var language: string
    var tags: seq<string>
    var thumbnailUrl: string
    var thumbnailFile: Option<FileHandle>
    var promoVideoUrl: string
    var promoVideoFile: Option<FileHandle>
    var modules: seq<Module>
    var isPaid: bool
    var price: real
    var discountPrice: Option<real>
    var slug: string
    var metaTitle: string
    var metaDescription: string
    var learningObjectives: seq<string>
    var targetAudience: string
    var prerequisites: string
    var certificateEnabled: bool
    var dripEnabled: bool
    var dripInterval: int
    var status: Status
    var currentStep: int

    /** The record the store currently holds. */
    function Snapshot(): CourseFormState
      reads this
    {
      CourseFormState(
        title,
        subtitle,
        description,
        category,
        level,
        language,
        tags,
        thumbnailUrl,
        thumbnailFile,
        promoVideoUrl,
        promoVideoFile,
        modules,
        isPaid,
        price,
        discountPrice,
        slug,
        metaTitle,
        metaDescription,
        learningObjectives,
        targetAudience,
        prerequisites,
        certificateEnabled,
        dripEnabled,
        dripInterval,
        status,
        currentStep)
    }

    constructor ()
      ensures Snapshot() == InitialState()
    {
      new;
      Load(InitialState());
    }

    /** Replaces the whole record. */
    method Load(s: CourseFormState)
      modifies this
      ensures Snapshot() == s
    {
      LoadBasicInfo(s);
      LoadCurriculumAndPricing(s);
      LoadSettings(s);
    }

    /** Copies the basic information and media fields of `s`. */
    method LoadBasicInfo(s: CourseFormState)
      modifies this`title, this`subtitle, this`description, this`category, this`level, this`language, this`tags, this`thumbnailUrl, this`thumbnailFile, this`promoVideoUrl, this`promoVideoFile
      ensures title == s.title && subtitle == s.subtitle && description == s.description && category == s.category && level == s.level && language == s.language && tags == s.tags && thumbnailUrl == s.thumbnailUrl && thumbnailFile == s.thumbnailFile && promoVideoUrl == s.promoVideoUrl && promoVideoFile == s.promoVideoFile
    {
      title := s.title;
      subtitle := s.subtitle;
      description := s.description;
      category := s.category;
      level := s.level;
      language := s.language;
      tags := s.tags;
      thumbnailUrl := s.thumbnailUrl;
      thumbnailFile := s.thumbnailFile;
      promoVideoUrl := s.promoVideoUrl;
      promoVideoFile := s.promoVideoFile;
    }

    /** Copies the curriculum, pricing and SEO fields of `s`. */
    method LoadCurriculumAndPricing(s: CourseFormState)
      modifies this`modules, this`isPaid, this`price, this`discountPrice, this`slug, this`metaTitle, this`metaDescription
      ensures modules == s.modules && isPaid == s.isPaid && price == s.price && discountPrice == s.discountPrice && slug == s.slug && metaTitle == s.metaTitle && metaDescription == s.metaDescription
    {
      modules := s.modules;
      isPaid := s.isPaid;
      price := s.price;
      discountPrice := s.discountPrice;
      slug := s.slug;
      metaTitle := s.metaTitle;
      metaDescription := s.metaDescription;
    }

    /** Copies the additional-information, drip, status and step fields of `s`. */
    method LoadSettings(s: CourseFormState)
      modifies this`learningObjectives, this`targetAudience, this`prerequisites, this`certificateEnabled, this`dripEnabled, this`dripInterval, this`status, this`currentStep
      ensures learningObjectives == s.learningObjectives && targetAudience == s.targetAudience && prerequisites == s.prerequisites && certificateEnabled == s.certificateEnabled && dripEnabled == s.dripEnabled && dripInterval == s.dripInterval && status == s.status && currentStep == s.currentStep
    {
      learningObjectives := s.learningObjectives;
      targetAudience := s.targetAudience;
      prerequisites := s.prerequisites;
      certificateEnabled := s.certificateEnabled;
      dripEnabled := s.dripEnabled;
      dripInterval := s.dripInterval;
      status := s.status;
      currentStep := s.currentStep;
    }

    method UpdateBasicInfo(patch: seq<Write>)
      requires PatchFits(patch)
      modifies this
      ensures Snapshot() == Reduce(old(Snapshot()), Action.UpdateBasicInfo(patch))
    {
      Load(ApplyPatch(Snapshot(), patch));
    }

    method SetThumbnail(url: string, file: Option<FileHandle>)
      modifies this`thumbnailUrl, this`thumbnailFile
      ensures thumbnailUrl == url && thumbnailFile == file
      ensures Snapshot() == Reduce(old(Snapshot()), Action.SetThumbnail(url, file))
    {
      thumbnailUrl := url;
      thumbnailFile := file;
    }

    method SetPromoVideo(url: string, file: Option<FileHandle>)
      modifies this`promoVideoUrl, this`promoVideoFile
      ensures promoVideoUrl == url && promoVideoFile == file
      ensures Snapshot() == Reduce(old(Snapshot()), Action.SetPromoVideo(url, file))
    {
      promoVideoUrl := url;
      promoVideoFile := file;
    }

    method AddModule(m: Module)
      modifies this`modules
      ensures modules == old(modules) + [m]
      ensures Snapshot() == Reduce(old(Snapshot()), Action.AddModule(m))
    {
      modules := modules + [m];
    }

    method UpdateModule(moduleId: string, newTitle: string)
      modifies this`modules
      ensures Snapshot() == Reduce(old(Snapshot()), Action.UpdateModule(moduleId, newTitle))
    {
      var i := ModuleIndex(modules, moduleId);
      if i != -1 {
        modules := modules[i := modules[i].(title := newTitle)];
      }
    }

    method DeleteModule(moduleId: string)
      modifies this`modules
      ensures Snapshot() == Reduce(old(Snapshot()), Action.DeleteModule(moduleId))
    {
      modules := WithoutModule(modules, moduleId);
    }

    method ReorderModules(order: seq<Module>)
      modifies this`modules
      ensures modules == order
      ensures Snapshot() == Reduce(old(Snapshot()), Action.ReorderModules(order))
    {
      modules := order;
    }

    method AddLesson(moduleId: string, lesson: Lesson)
      modifies this`modules
      ensures Snapshot() == Reduce(old(Snapshot()), Action.AddLesson(moduleId, lesson))
    {
      var i := ModuleIndex(modules, moduleId);
      if i != -1 {
        modules := modules[i := modules[i].(lessons := modules[i].lessons + [lesson])];
      }
    }

    method UpdateLesson(moduleId: string, lessonId: string, updates: LessonPatch)
      modifies this`modules
      ensures Snapshot() == Reduce(old(Snapshot()), Action.UpdateLesson(moduleId, lessonId, updates))
    {
      var i := ModuleIndex(modules, moduleId);
      if i != -1 {
        var lessons := modules[i].lessons;
        var j := LessonIndex(lessons, lessonId);
        if j != -1 {
          var merged := MergeLesson(lessons[j], updates);
          assert lessons[j := merged] == EditLesson(lessons, lessonId, (l: Lesson) => MergeLesson(l, updates));
          modules := modules[i := modules[i].(lessons := lessons[j := merged])];
        }
      }
    }

    method DeleteLesson(moduleId: string, lessonId: string)
      modifies this`modules
      ensures Snapshot() == Reduce(old(Snapshot()), Action.DeleteLesson(moduleId, lessonId))
    {
      var i := ModuleIndex(modules, moduleId);
      if i != -1 {
        modules := modules[i := modules[i].(lessons := WithoutLesson(modules[i].lessons, lessonId))];
      }
    }

    method UpdateTags(newTags: seq<string>)
      modifies this`tags
      ensures tags == newTags
      ensures Snapshot() == Reduce(old(Snapshot()), Action.UpdateTags(newTags))
    {
      tags := newTags;
    }

    method AddLearningObjective(objective: string)
      modifies this`learningObjectives
      ensures learningObjectives == old(learningObjectives) + [objective]
      ensures Snapshot() == Reduce(old(Snapshot()), Action.AddLearningObjective(objective))
    {
      learningObjectives := learningObjectives + [objective];
    }

    method UpdateLearningObjective(index: int, value: string)
      modifies this`learningObjectives
      ensures Snapshot() == Reduce(old(Snapshot()), Action.UpdateLearningObjective(index, value))
    {
      if 0 <= index < |learningObjectives| {
        learningObjectives := learningObjectives[index := value];
      }
    }

    method DeleteLearningObjective(index: int)
      modifies this`learningObjectives
      ensures Snapshot() == Reduce(old(Snapshot()), Action.DeleteLearningObjective(index))
    {
      learningObjectives := RemoveIndex(learningObjectives, index);
    }

    method SetCurrentStep(step: int)
      modifies this`currentStep
      ensures currentStep == step
      ensures Snapshot() == Reduce(old(Snapshot()), Action.SetCurrentStep(step))
    {
      currentStep := step;
    }

    method SetCourseStatus(newStatus: Status)
      modifies this`status
      ensures status == newStatus
      ensures Snapshot() == Reduce(old(Snapshot()), Action.SetCourseStatus(newStatus))
    {
      status := newStatus;
    }

    method ResetCourseForm()
      modifies this
      ensures Snapshot() == InitialState()
      ensures Snapshot() == Reduce(old(Snapshot()), Action.ResetCourseForm)
    {
      Load(InitialState());
    }
  }
}
