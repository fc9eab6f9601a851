// The curriculum step: adding, renaming and deleting modules, and the
// lesson dialog that gates files by MIME type, uploads the chosen file
// and dispatches an add or an update.

module CurriculumBuilder {
  import opened Wrappers
  import opened Seqs
  import opened Text
  import opened Api
  import opened CourseFormSlice

  // ---------------------------------------------------------------------
  // Lesson files
  // ---------------------------------------------------------------------

  /**
   * The document MIME types a document lesson accepts: PDF, DOCX, PPTX
   * (spelled as concatenations so that their shared `application/` prefix
   * is visible to the prover).
   */
  const DocumentMimes: seq<string> := [
    "application/" + "pdf",
    "application/" + ("vnd.openxmlformats-officedocument." + "wordprocessingml.document"),
    "application/" + ("vnd.openxmlformats-officedocument." + "presentationml.presentation")
  ]

  /**
   * The gate in handleFileChange: a video lesson takes a `video/` type, a
   * document lesson one of the three document types, notes anything.
   */
  function AcceptsLessonFile(t: LessonType, mime: string): (r: bool)
    ensures t == Video ==> (r <==> StartsWith(mime, "video/"))
    ensures t == Document ==> (r <==> mime in DocumentMimes)
    ensures t == Notes ==> r
  {
    match t
    case Video => StartsWith(mime, "video/")
    case Document => mime in DocumentMimes
    case Notes => true
  }

  /** No file passes both the video gate and the document gate. */
  lemma VideoAndDocumentGatesDisjoint(mime: string)
    ensures !(AcceptsLessonFile(Video, mime) && AcceptsLessonFile(Document, mime))
  {
    if mime in DocumentMimes {
      var k :| 0 <= k < |DocumentMimes| && DocumentMimes[k] == mime;
      assert "application/"[0] == 'a';
      if k == 0 {
        assert mime == "application/" + "pdf";
      } else if k == 1 {
        assert mime == "application/" + ("vnd.openxmlformats-officedocument." + "wordprocessingml.document");
      } else {
        assert mime == "application/" + ("vnd.openxmlformats-officedocument." + "presentationml.presentation");
      }
      assert |mime| >= 6 ==> mime[..6][0] == 'a';
      assert "video/"[0] == 'v';
    }
  }

  /** The kind handed to the upload service: video for video lessons, else document. */
  function UploadKindFor(t: LessonType): (r: UploadKind)
    ensures r == VideoUpload <==> t == Video
    ensures r != ImageUpload
  {
    if t == Video then VideoUpload else DocumentUpload
  }

  // ---------------------------------------------------------------------
  // The lesson dialog
  // ---------------------------------------------------------------------

  /** What the dialog holds when Add or Update is pressed. */
  datatype DialogState = DialogState(
    moduleId: string,
    lesson: Option<Lesson>,
    isEdit: bool,
    title: string,
    lessonType: LessonType,
    content: string,
    file: Option<FileHandle>)

  /** `lesson?.fileUrl || ''` and `lesson?.fileName || ''`. */
  function KeptFileUrl(lesson: Option<Lesson>): string {
    if lesson.Some? && lesson.value.fileUrl.Some? then lesson.value.fileUrl.value else ""
  }

  function KeptFileName(lesson: Option<Lesson>): string {
    if lesson.Some? && lesson.value.fileName.Some? then lesson.value.fileName.value else ""
  }

  /** `Partial<Lesson>` holding every field a lesson built by the dialog has. */
  function AsPatch(l: Lesson): LessonPatch {
    LessonPatch(Some(l.id), Some(l.title), Some(l.lessonType), Some(l.content), l.duration, l.fileUrl, l.fileName)
  }

  /**
   * lessonData: the existing id (a fresh one on add, or when it is empty),
   * the dialog's fields, and the file of a successful upload or else the
   * lesson's own file.
   */
  function SubmittedLesson(d: DialogState, upload: UploadOutcome, freshId: string): (l: Lesson)
    ensures l.id == (if d.lesson.Some? && d.lesson.value.id != "" then d.lesson.value.id else freshId)
    ensures l.title == d.title && l.lessonType == d.lessonType && l.content == d.content
    ensures l.duration.None?
    ensures d.file.Some? && upload.Uploaded? ==>
      l.fileUrl == Some(upload.url) && l.fileName == Some(d.file.value.name)
    ensures d.file.None? ==> l.fileUrl == Some(KeptFileUrl(d.lesson)) && l.fileName == Some(KeptFileName(d.lesson))
  {
    var id := if d.lesson.Some? && d.lesson.value.id != "" then d.lesson.value.id else freshId;
    var uploaded := d.file.Some? && upload.Uploaded?;
    var url := if uploaded then upload.url else KeptFileUrl(d.lesson);
    var name := if uploaded then d.file.value.name else KeptFileName(d.lesson);
    Lesson(id, d.title, d.lessonType, d.content, None, Some(url), Some(name))
  }

  /**
   * LessonDialog.handleSubmit: nothing is dispatched for an empty title or
   * a failed upload; otherwise an edit of an existing lesson dispatches
   * updateLesson on that lesson's id and anything else dispatches addLesson.
   */
  function LessonSubmission(d: DialogState, upload: UploadOutcome, freshId: string): (r: Option<Action>)
    ensures r.None? <==> d.title == "" || (d.file.Some? && upload.UploadFailed?)
    ensures r.Some? && d.isEdit && d.lesson.Some? ==>
      r.value == UpdateLesson(d.moduleId, d.lesson.value.id, AsPatch(SubmittedLesson(d, upload, freshId)))
    ensures r.Some? && !(d.isEdit && d.lesson.Some?) ==>
      r.value == AddLesson(d.moduleId, SubmittedLesson(d, upload, freshId))
  {
    if d.title == "" || (d.file.Some? && upload.UploadFailed?) then None
    else
      var l := SubmittedLesson(d, upload, freshId);
      if d.isEdit && d.lesson.Some? then Some(UpdateLesson(d.moduleId, d.lesson.value.id, AsPatch(l)))
      else Some(AddLesson(d.moduleId, l))
  }

  /** The dialog's invariant: in edit mode the type is the edited lesson's. */
  predicate TypeFixedInEdit(d: DialogState) {
    d.isEdit && d.lesson.Some? ==> d.lessonType == d.lesson.value.lessonType
  }

  /**
   * Submitting an edit keeps the stored lesson's id and type and keeps its
   * duration, while title and content take the dialog's values.
   */
  lemma EditSubmissionKeepsIdAndType(s: CourseFormState, d: DialogState, upload: UploadOutcome, freshId: string)
    requires TypeFixedInEdit(d) && d.isEdit && d.lesson.Some? && d.lesson.value.id != ""
    requires LessonSubmission(d, upload, freshId).Some?
    requires HasModule(s.modules, d.moduleId)
    requires var i := ModuleIndex(s.modules, d.moduleId);
      var j := LessonIndex(s.modules[i].lessons, d.lesson.value.id);
      0 <= j && s.modules[i].lessons[j] == d.lesson.value
    ensures var i := ModuleIndex(s.modules, d.moduleId);
      var j := LessonIndex(s.modules[i].lessons, d.lesson.value.id);
      var r := Reduce(s, LessonSubmission(d, upload, freshId).value).modules;
      var stored := s.modules[i].lessons[j];
      && r[i].lessons[j].id == stored.id
      && r[i].lessons[j].lessonType == stored.lessonType
      && r[i].lessons[j].duration == stored.duration
      && r[i].lessons[j].title == d.title && r[i].lessons[j].content == d.content
  {
    var i := ModuleIndex(s.modules, d.moduleId);
    var ls := s.modules[i].lessons;
    var j := LessonIndex(ls, d.lesson.value.id);
    assert ls[j] in ls;
    UpdateLessonMerges(s, d.moduleId, d.lesson.value.id, AsPatch(SubmittedLesson(d, upload, freshId)));
  }

  /**
   * Adding with a fresh id appends a lesson that a later delete by that id
   * removes again, restoring the curriculum.
   */
  lemma AddSubmissionIsUndoneByDelete(s: CourseFormState, d: DialogState, upload: UploadOutcome, freshId: string)
    requires !d.isEdit && d.lesson.None?
    requires LessonSubmission(d, upload, freshId).Some?
    requires HasModule(s.modules, d.moduleId)
    requires forall x :: x in s.modules[ModuleIndex(s.modules, d.moduleId)].lessons ==> x.id != freshId
    ensures var a := LessonSubmission(d, upload, freshId).value;
      && a == AddLesson(d.moduleId, a.lesson) && a.lesson.id == freshId
      && Reduce(Reduce(s, a), DeleteLesson(d.moduleId, freshId)) == s
  {
    AddThenDeleteLesson(s, d.moduleId, SubmittedLesson(d, upload, freshId));
  }

  /** The lesson dialog, opened for adding or for editing one lesson. */
  class LessonDialog {
    const store: CourseFormStore
    const moduleId: string
    const lesson: Option<Lesson>
    const isEdit: bool
    var title: string
    var lessonType: LessonType
    var content: string
    var file: Option<FileHandle>

    function State(): DialogState
      reads this
    {
      DialogState(moduleId, lesson, isEdit, title, lessonType, content, file)
    }

    ghost predicate Valid()
      reads this
    {
      TypeFixedInEdit(State())
    }

    /** The initial fields: the lesson's own, or empty with type video. */
    constructor (store: CourseFormStore, moduleId: string, lesson: Option<Lesson>, isEdit: bool)
      ensures Valid()
      ensures this.store == store && this.moduleId == moduleId && this.lesson == lesson && this.isEdit == isEdit
      ensures lesson.Some? ==> title == lesson.value.title && lessonType == lesson.value.lessonType
                               && content == lesson.value.content
      ensures lesson.None? ==> title == "" && lessonType == Video && content == ""
      ensures file.None?
    {
      this.store := store;
      this.moduleId := moduleId;
      this.lesson := lesson;
      this.isEdit := isEdit;
      if lesson.Some? {
        title := lesson.value.title;
        lessonType := lesson.value.lessonType;
        content := lesson.value.content;
      } else {
        title := "";
        lessonType := Video;
        content := "";
      }
      file := None;
    }

    method SetTitle(t: string)
      requires Valid()
      modifies this`title
      ensures Valid() && title == t
    {
      title := t;
    }

    method SetContent(c: string)
      requires Valid()
      modifies this`content
      ensures Valid() && content == c
    {
      content := c;
    }

    /** The type selector, disabled in edit mode. */
    method SelectType(t: LessonType)
      requires Valid()
      modifies this`lessonType
      ensures Valid()
      ensures lessonType == (if isEdit then old(lessonType) else t)
    {
      if !isEdit {
        lessonType := t;
      }
    }

    /** handleFileChange: a rejected file leaves the selection as it was. */
    method HandleFileChange(selected: Option<FileHandle>)
      requires Valid()
      modifies this`file
      ensures Valid()
      ensures file == (if selected.Some? && AcceptsLessonFile(lessonType, selected.value.mime)
                       then selected else old(file))
    {
      if selected.Some? {
        if lessonType == Video && !StartsWith(selected.value.mime, "video/") {
          return;
        }
        if lessonType == Document && selected.value.mime !in DocumentMimes {
          return;
        }
        file := selected;
      }
    }

    /** The remove button next to the chosen file. */
    method ClearFile()
      requires Valid()
      modifies this`file
      ensures Valid() && file.None?
    {
      file := None;
    }

    /**
     * handleSubmit, given the outcome of the upload and the id the fresh-id
     * source would produce; returns the upload kind requested, if any.
     */
    method HandleSubmit(upload: UploadOutcome, freshId: string) returns (requested: Option<UploadKind>)
      requires Valid()
      modifies store`modules
      ensures var r := LessonSubmission(State(), upload, freshId);
        store.Snapshot() == (if r.Some? then Reduce(old(store.Snapshot()), r.value) else old(store.Snapshot()))
      ensures requested == (if title != "" && file.Some? then Some(UploadKindFor(lessonType)) else None)
    {
      requested := None;
      if title == "" {
        return;
      }
      var fileUrl := KeptFileUrl(lesson);
      var fileName := KeptFileName(lesson);
      if file.Some? {
        requested := Some(UploadKindFor(lessonType));
        if upload.UploadFailed? {
          return;
        }
        fileUrl := upload.url;
        fileName := file.value.name;
      }
      var id := if lesson.Some? && lesson.value.id != "" then lesson.value.id else freshId;
      var lessonData := Lesson(id, title, lessonType, content, None, Some(fileUrl), Some(fileName));
      assert lessonData == SubmittedLesson(State(), upload, freshId);
      if isEdit && lesson.Some? {
        store.UpdateLesson(moduleId, lesson.value.id, AsPatch(lessonData));
      } else {
        store.AddLesson(moduleId, lessonData);
      }
    }
  }

  // ---------------------------------------------------------------------
  // The module list
  // ---------------------------------------------------------------------

  /** The curriculum step's own state around the store. */
  class Builder {
    const store: CourseFormStore
    var newModuleTitle: string
    var editModuleId: Option<string>
    var editModuleTitle: string

    constructor (store: CourseFormStore)
      ensures this.store == store
      ensures newModuleTitle == "" && editModuleId.None? && editModuleTitle == ""
    {
      this.store := store;
      newModuleTitle := "";
      editModuleId := None;
      editModuleTitle := "";
    }

    method SetNewModuleTitle(t: string)
      modifies this`newModuleTitle
      ensures newModuleTitle == t
    {
      newModuleTitle := t;
    }

    /**
     * handleAddModule, with `freshId` the fresh-id source's next id: an
     * empty title dispatches nothing; otherwise an empty module with that
     * id is appended, the input is cleared, and module ids stay distinct.
     */
    method HandleAddModule(freshId: string)
      requires !HasModule(store.modules, freshId)
      modifies this`newModuleTitle, store`modules
      ensures old(newModuleTitle) == "" ==>
        store.Snapshot() == old(store.Snapshot()) && newModuleTitle == ""
      ensures old(newModuleTitle) != "" ==>
        && store.Snapshot() == Reduce(old(store.Snapshot()), AddModule(Module(freshId, old(newModuleTitle), [])))
        && newModuleTitle == ""
      ensures DistinctModuleIds(old(store.modules)) ==> DistinctModuleIds(store.modules)
    {
      if newModuleTitle == "" {
        return;
      }
      ghost var before := store.Snapshot();
      store.AddModule(Module(freshId, newModuleTitle, []));
      if DistinctModuleIds(before.modules) {
        CurriculumReducersKeepDistinctIds(before, AddModule(Module(freshId, old(newModuleTitle), [])));
      }
      newModuleTitle := "";
    }

    /** handleStartEditModule: remembers the module's id and title. */
    method HandleStartEditModule(m: Module)
      modifies this`editModuleId, this`editModuleTitle
      ensures editModuleId == Some(m.id) && editModuleTitle == m.title
    {
      editModuleId := Some(m.id);
      editModuleTitle := m.title;
    }

    method SetEditModuleTitle(t: string)
      modifies this`editModuleTitle
      ensures editModuleTitle == t
    {
      editModuleTitle := t;
    }

    /**
     * handleConfirmEditModule: without an edit id (null or empty) or with
     * an empty title nothing happens; otherwise the module is renamed and
     * the edit state cleared.
     */
    method HandleConfirmEditModule()
      modifies this`editModuleId, this`editModuleTitle, store`modules
      ensures var id := old(editModuleId);
        (id.None? || id.value == "" || old(editModuleTitle) == "") ==>
          && store.Snapshot() == old(store.Snapshot())
          && editModuleId == old(editModuleId) && editModuleTitle == old(editModuleTitle)
      ensures var id := old(editModuleId);
        !(id.None? || id.value == "" || old(editModuleTitle) == "") ==>
          && store.Snapshot() == Reduce(old(store.Snapshot()), UpdateModule(id.value, old(editModuleTitle)))
          && editModuleId.None? && editModuleTitle == ""
      ensures DistinctModuleIds(old(store.modules)) ==> DistinctModuleIds(store.modules)
    {
      if editModuleId.None? || editModuleId.value == "" || editModuleTitle == "" {
        return;
      }
      ghost var before := store.Snapshot();
      store.UpdateModule(editModuleId.value, editModuleTitle);
      if DistinctModuleIds(before.modules) {
        CurriculumReducersKeepDistinctIds(before, UpdateModule(editModuleId.value, editModuleTitle));
      }
      editModuleId := None;
      editModuleTitle := "";
    }

    /** handleDeleteModule, with the answer of the confirmation dialog. */
    method HandleDeleteModule(moduleId: string, confirmed: bool)
      modifies store`modules
      ensures store.Snapshot() ==
        (if confirmed then Reduce(old(store.Snapshot()), DeleteModule(moduleId)) else old(store.Snapshot()))
      ensures DistinctModuleIds(old(store.modules)) ==> DistinctModuleIds(store.modules)
    {
      if confirmed {
        ghost var before := store.Snapshot();
        store.DeleteModule(moduleId);
        if DistinctModuleIds(before.modules) {
          CurriculumReducersKeepDistinctIds(before, DeleteModule(moduleId));
        }
      }
    }

    /** handleDeleteLesson, with the answer of the confirmation dialog. */
    method HandleDeleteLesson(moduleId: string, lessonId: string, confirmed: bool)
      modifies store`modules
      ensures store.Snapshot() ==
        (if confirmed then Reduce(old(store.Snapshot()), DeleteLesson(moduleId, lessonId)) else old(store.Snapshot()))
      ensures DistinctModuleIds(old(store.modules)) ==> DistinctModuleIds(store.modules)
    {
      if confirmed {
        ghost var before := store.Snapshot();
        store.DeleteLesson(moduleId, lessonId);
        if DistinctModuleIds(before.modules) {
          CurriculumReducersKeepDistinctIds(before, DeleteLesson(moduleId, lessonId));
        }
      }
    }
  }
}
