# Course authoring model

A Dafny model of the course-authoring core of an instructor dashboard. The
model covers four parts:

- **The authoring record and its reducers.** One record holds the basic
  fields, the media slots, pricing, SEO, learning objectives, the wizard
  step and the status. The curriculum is an ordered list of modules, and
  each module holds an ordered list of lessons. The reducers check nothing:
  an unknown module or lesson id is a silent no-op, `reorderModules`
  installs whatever list it is given, and `updateLesson` spreads every field
  it receives, `type` included.
- **The guard layer in the wizard's components.** These handlers call the
  reducers. They require non-empty module and lesson titles, de-duplicate
  tags, clamp prices and the drip interval, gate files by MIME type, and
  fix the lesson type in edit mode.
- **The wizard.** Next and previous are clamped. The stepper sets the step
  directly. Submit checks first-failure-wins, and save-draft is
  unconditional.
- **The dashboard list logic.** It covers the top-three popular courses,
  publishing and unpublishing by id, the published/unpublished filter with
  the enrolment sort, and lecture progress.

## Module layout

- `Wrappers`, `Seqs` and `Text` are helpers:
  - `Wrappers` holds `Option`.
  - `Seqs` holds first-match search, `filter`, removal at an index, distinctness and cardinality facts.
  - `Text` holds ASCII white space, `startsWith` and `trim`.
- `Api` holds the upload service's outcome and the kinds of upload.
- `CourseFormSlice` models the slice:
  - The state datatype and `Reduce`, the specification of every reducer.
  - `CourseFormStore`, a class with one field per state field and one method per reducer. Each method is proved to change exactly what `Reduce` says.
  - The invariant `Guarded`, which the component layer keeps.
- Each wizard component is its own module:
  - `CourseForm`, `CourseFormStepper`, `BasicInfoForm`, `SettingsForm`, `PricingForm`, `MediaForm` and `CurriculumBuilder`.
  - Pure handlers are functions that produce the action they dispatch.
  - Imperative handlers are methods that call the store.
- The dashboard has three modules:
  - `DashboardSlice`: the fetch thunk's result, popular courses and the `extraReducers` as the class `DashboardStore`.
  - `CoursesList`: the filter, the sort and the publish toggle.
  - `CoursePage`: lecture progress.

Outside calls are parameters of the operations that use them:

- The upload service is passed in as an `UploadOutcome`.
- The fresh-id source (`uuidv4`) is passed in as a `freshId` argument. Where it matters, a precondition says the id is not yet in use.
- The answer of the `confirm()` dialog is passed in as `confirmed`.
- The browser's preview URL is passed in as `previewUrl`.
- The mock students and activity lists are passed to `FetchDashboardData`.
- Date parsing for the date sort is passed in as `dateOf`.
- `saveCourse` is modelled by the record it receives.

## Model

| member | source | states |
|---|---|---|
| CourseFormSlice.InitialStateGuarded | src/store/slices/courseFormSlice.ts:66-101 | the initial record has one empty objective, no modules and no tags, language English, no level, drip interval 7 with drip off, the certificate on, a free course at price 0 without discount, status draft at step 0 and no media files; it keeps every guarded invariant |
| CourseFormSlice.ApplyPatch | src/store/slices/courseFormSlice.ts:107-109 | spread law of `updateBasicInfo`: every key reads the payload's value when the payload has that key, and the old value otherwise |
| CourseFormSlice.ApplyWrite | src/store/slices/courseFormSlice.ts:107-109 | one payload key: that key reads the written value, and every other key is unchanged |
| CourseFormSlice.Lookup | src/store/slices/courseFormSlice.ts:107-109 | a key is absent exactly when no write in the payload names it; a value found comes from a write with that key |
| CourseFormSlice.UntouchedKey | src/store/slices/courseFormSlice.ts:107-109 | a field the payload does not name keeps its value |
| CourseFormSlice.OneKeyPatch | src/store/slices/courseFormSlice.ts:107-109 | a one-key payload is exactly a single field write |
| CourseFormSlice.UnguardedPatchKeepsGuarded | src/store/slices/courseFormSlice.ts:107-109 | a payload touching none of the guarded fields keeps the guarded invariants |
| CourseFormSlice.GuardedByGuardedKeys | src/store/slices/courseFormSlice.ts:20-64 | a record that agrees with a guarded record on tags, prices, drip interval, step and modules is guarded too |
| CourseFormSlice.EditModule | src/store/slices/courseFormSlice.ts:121-126 | only the first module with the id is rewritten, and every other position is unchanged; an unknown id leaves the list unchanged |
| CourseFormSlice.EditLesson | src/store/slices/courseFormSlice.ts:139-150 | only the first lesson with the id is rewritten, and every other position is unchanged; an unknown id leaves the list unchanged |
| CourseFormSlice.ModuleIndexAfterEdit | src/store/slices/courseFormSlice.ts:121-126 | an edit that keeps the module's id keeps it findable at the same position |
| CourseFormSlice.DeleteModuleKeepsOthers | src/store/slices/courseFormSlice.ts:127-129 | `deleteModule` changes only `modules`, keeps exactly the modules with another id, and is a no-op for an unknown id |
| CourseFormSlice.DeleteModuleKeepsOrder | src/store/slices/courseFormSlice.ts:127-129 | deletion distributes over concatenation, so the relative order of the remaining modules is kept |
| CourseFormSlice.AddThenDeleteModule | src/store/slices/courseFormSlice.ts:118-129 | adding a module with an unused id and then deleting that id restores the record |
| CourseFormSlice.DeletedModuleIsUnreachable | src/store/slices/courseFormSlice.ts:121-158 | after a module is deleted, every later lesson or module action on its id is a no-op |
| CourseFormSlice.AppendThenWithoutLesson | src/store/slices/courseFormSlice.ts:133-158 | appending a lesson with an unused id and filtering that id out gives the original lessons |
| CourseFormSlice.AddThenDeleteLessonModules | src/store/slices/courseFormSlice.ts:133-158 | the same round trip on the module list: add then delete in one module restores the curriculum |
| CourseFormSlice.AddThenDeleteLesson | src/store/slices/courseFormSlice.ts:133-158 | `addLesson` followed by `deleteLesson` of the new id restores the whole record |
| CourseFormSlice.UpdateLessonMerges | src/store/slices/courseFormSlice.ts:139-150 | the matching lesson becomes the spread of the update over it, `type` included when supplied; every other lesson and module is unchanged |
| CourseFormSlice.UnknownLessonIsNoop | src/store/slices/courseFormSlice.ts:139-158 | `updateLesson` and `deleteLesson` with a lesson id absent from the module leave the record unchanged |
| CourseFormSlice.DeleteObjectiveCompacts | src/store/slices/courseFormSlice.ts:170-172 | an in-range index removes exactly that entry and shifts later ones down; an out-of-range index changes nothing |
| CourseFormSlice.WithoutModuleKeepsDistinctIds | src/store/slices/courseFormSlice.ts:127-129 | deleting a module keeps module ids distinct |
| CourseFormSlice.EditKeepsDistinctIds | src/store/slices/courseFormSlice.ts:121-158 | an id-preserving edit of one module keeps module ids distinct |
| CourseFormSlice.CurriculumReducersKeepDistinctIds | src/store/slices/courseFormSlice.ts:118-158 | every curriculum reducer keeps module ids distinct, given an unused id for `addModule` |
| CourseFormSlice.CourseFormStore.constructor | src/store/slices/courseFormSlice.ts:66-101 | the store starts from the initial record |
| CourseFormSlice.CourseFormStore.UpdateBasicInfo | src/store/slices/courseFormSlice.ts:107-109 | the new record is the spread of the payload over the old one |
| CourseFormSlice.CourseFormStore.SetThumbnail | src/store/slices/courseFormSlice.ts:110-113 | writes the thumbnail url and file and nothing else |
| CourseFormSlice.CourseFormStore.SetPromoVideo | src/store/slices/courseFormSlice.ts:114-117 | writes the promo-video url and file and nothing else |
| CourseFormSlice.CourseFormStore.AddModule | src/store/slices/courseFormSlice.ts:118-120 | appends the module at the end; earlier modules and every other field are unchanged |
| CourseFormSlice.CourseFormStore.UpdateModule | src/store/slices/courseFormSlice.ts:121-126 | renames the first module with the id, or does nothing for an unknown id |
| CourseFormSlice.CourseFormStore.DeleteModule | src/store/slices/courseFormSlice.ts:127-129 | filters out every module with the id |
| CourseFormSlice.CourseFormStore.ReorderModules | src/store/slices/courseFormSlice.ts:130-132 | installs the given list as it is, with no permutation check |
| CourseFormSlice.CourseFormStore.AddLesson | src/store/slices/courseFormSlice.ts:133-138 | appends to the lessons of the first module with the id only |
| CourseFormSlice.CourseFormStore.UpdateLesson | src/store/slices/courseFormSlice.ts:139-150 | merges the update into the first matching lesson of the first matching module, in place |
| CourseFormSlice.CourseFormStore.DeleteLesson | src/store/slices/courseFormSlice.ts:151-158 | filters the lesson out of the matching module only |
| CourseFormSlice.CourseFormStore.UpdateTags | src/store/slices/courseFormSlice.ts:159-161 | replaces the tag list and nothing else |
| CourseFormSlice.CourseFormStore.AddLearningObjective | src/store/slices/courseFormSlice.ts:162-164 | appends the objective |
| CourseFormSlice.CourseFormStore.UpdateLearningObjective | src/store/slices/courseFormSlice.ts:165-169 | replaces the entry only when the index is inside the list |
| CourseFormSlice.CourseFormStore.DeleteLearningObjective | src/store/slices/courseFormSlice.ts:170-172 | removes the entry at the index; an out-of-range index changes nothing |
| CourseFormSlice.CourseFormStore.SetCurrentStep | src/store/slices/courseFormSlice.ts:173-175 | writes the step, unchecked |
| CourseFormSlice.CourseFormStore.SetCourseStatus | src/store/slices/courseFormSlice.ts:176-178 | writes the status |
| CourseFormSlice.CourseFormStore.ResetCourseForm | src/store/slices/courseFormSlice.ts:179 | the record becomes the initial record |
| CourseForm.NextStep | src/components/CourseCreation/CourseForm.tsx:41-44 | advances by one below the last step and stays at the last step otherwise |
| CourseForm.PreviousStep | src/components/CourseCreation/CourseForm.tsx:46-49 | goes back by one above step 0 and stays at 0 otherwise |
| CourseForm.PreviousUndoesNext | src/components/CourseCreation/CourseForm.tsx:41-49 | inside the wizard, previous undoes next and next undoes previous |
| CourseForm.NavigationStaysInRange | src/components/CourseCreation/CourseForm.tsx:41-49 | any run of next and previous clicks from a step in 0..4 stays in 0..4 |
| CourseForm.HandleNext | src/components/CourseCreation/CourseForm.tsx:41-44 | dispatches `setCurrentStep` with the clamped next step |
| CourseForm.HandlePrevious | src/components/CourseCreation/CourseForm.tsx:46-49 | dispatches `setCurrentStep` with the clamped previous step |
| CourseForm.RenderStepContent | src/components/CourseCreation/CourseForm.tsx:24-39 | each step shows the panel the stepper names for it, and a step outside 0..4 shows the basic-info panel |
| CourseForm.PrimaryButtonAt | src/components/CourseCreation/CourseForm.tsx:150-169 | Submit is shown exactly at the last step, and Next everywhere else |
| CourseForm.PreviousEnabled | src/components/CourseCreation/CourseForm.tsx:126 | Previous is disabled exactly at step 0 |
| CourseForm.SubmitCheckOf | src/components/CourseCreation/CourseForm.tsx:73-91 | first failure wins: an empty title sends the user to step 0, a titled course without modules to step 2, and anything else is accepted |
| CourseForm.SubmitChecksOnlyEmptiness | src/components/CourseCreation/CourseForm.tsx:73-96 | a one-space title and a module without lessons pass the check |
| CourseForm.Submit | src/components/CourseCreation/CourseForm.tsx:71-110 | a redirect only moves the step and saves nothing; acceptance sets the status to submitted and saves the record as it was read before the dispatch |
| CourseForm.SaveDraft | src/components/CourseCreation/CourseForm.tsx:51-69 | always sets the status to draft and saves the record as it was read before the dispatch |
| CourseForm.SavedStatusIsStale | src/components/CourseCreation/CourseForm.tsx:51-110 | the saved record carries the old status: a draft is saved as draft by Submit, and a submitted course is saved as submitted by Save Draft |
| CourseForm.SubmitIntended | src/components/CourseCreation/CourseForm.tsx:71-110 | same state change and the same gate as Submit, but the saved record is the record after the status change |
| CourseForm.SaveDraftIntended | src/components/CourseCreation/CourseForm.tsx:51-69 | same state change as Save Draft, and the saved record has status draft |
| CourseForm.HandleSaveDraft | src/components/CourseCreation/CourseForm.tsx:51-69 | the store changes, and the saved record is returned, as `SaveDraft` says |
| CourseForm.HandleSubmit | src/components/CourseCreation/CourseForm.tsx:71-110 | the store changes, and the record is saved, as `Submit` says |
| CourseFormStepper.StepsTable | src/components/CourseCreation/CourseFormStepper.tsx:7-13 | there are exactly five steps, with ids 0..4 in order |
| CourseFormStepper.Classify | src/components/CourseCreation/CourseFormStepper.tsx:32-59 | a step is completed, current or upcoming exactly when the current step is past, at or before its id |
| CourseFormStepper.PhasesSplitTheTable | src/components/CourseCreation/CourseFormStepper.tsx:32-59 | for a step inside the wizard, the steps before it are completed, the step itself is current and the steps after it are upcoming |
| CourseFormStepper.ClickTarget | src/components/CourseCreation/CourseFormStepper.tsx:41-66 | only the current step's label has no click target; any other label targets its own id |
| CourseFormStepper.HandleStepClick | src/components/CourseCreation/CourseFormStepper.tsx:19-21 | dispatches `setCurrentStep(id)` with no validation |
| CourseFormStepper.ClickStaysInTable | src/components/CourseCreation/CourseFormStepper.tsx:19-21 | a click moves the step to another step of the table and changes nothing else |
| BasicInfoForm.ChangePayload | src/components/CourseCreation/BasicInfoForm.tsx:34-45 | each field or select change is a one-key payload naming the edited field |
| BasicInfoForm.ChangeWritesOnlyItsField | src/components/CourseCreation/BasicInfoForm.tsx:34-45 | the change writes the edited field and keeps every other field |
| BasicInfoForm.AddTag | src/components/CourseCreation/BasicInfoForm.tsx:47-53 | nothing is dispatched exactly when the input is empty or already a tag; otherwise the tags gain the untrimmed input at the end and the input clears |
| BasicInfoForm.RemoveTag | src/components/CourseCreation/BasicInfoForm.tsx:62-65 | the result holds exactly the other tags, and every occurrence of the tag is dropped |
| BasicInfoForm.AddTagKeepsDistinct | src/components/CourseCreation/BasicInfoForm.tsx:47-53 | a tag list without repeats stays without repeats after `addTag` |
| BasicInfoForm.RemoveTagKeepsDistinct | src/components/CourseCreation/BasicInfoForm.tsx:62-65 | a tag list without repeats stays without repeats after `removeTag` |
| BasicInfoForm.RemoveAbsentTag | src/components/CourseCreation/BasicInfoForm.tsx:62-65 | removing an absent tag gives the same list |
| BasicInfoForm.RemoveTagKeepsOrder | src/components/CourseCreation/BasicInfoForm.tsx:62-65 | removal distributes over concatenation, so the order of the others is kept |
| BasicInfoForm.RemoveUndoesAdd | src/components/CourseCreation/BasicInfoForm.tsx:47-65 | removing a tag just added restores the list |
| BasicInfoForm.TagHandlersKeepGuarded | src/components/CourseCreation/BasicInfoForm.tsx:47-65 | both tag handlers keep the record's guarded invariants |
| SettingsForm.ToLowerAscii | src/components/CourseCreation/SettingsForm.tsx:75 | lowercases position by position and leaves no upper-case letter |
| SettingsForm.StripForSlug | src/components/CourseCreation/SettingsForm.tsx:76 | keeps exactly the word characters, white space and hyphens of the input |
| SettingsForm.StripConcat | src/components/CourseCreation/SettingsForm.tsx:76 | stripping distributes over concatenation, so what is kept stays in order with its repeats |
| SettingsForm.StripOne | src/components/CourseCreation/SettingsForm.tsx:76 | a single character survives exactly when it is a word character, white space or a hyphen |
| SettingsForm.HyphenateWhitespace | src/components/CourseCreation/SettingsForm.tsx:77 | the output has no white space and holds only hyphens and input characters |
| SettingsForm.HyphenateRun | src/components/CourseCreation/SettingsForm.tsx:77 | a whole run of white space, of any length, becomes exactly one hyphen before the rest |
| SettingsForm.HyphenateKeeps | src/components/CourseCreation/SettingsForm.tsx:77 | any other character is copied in place and the rest is hyphenated after it |
| SettingsForm.HyphenateRunExample | src/components/CourseCreation/SettingsForm.tsx:77 | "a \t b" gives "a-b" |
| SettingsForm.SlugAlphabet | src/components/CourseCreation/SettingsForm.tsx:74-77 | a generated slug contains only `[a-z0-9_-]` |
| SettingsForm.HyphenateWithoutWhitespace | src/components/CourseCreation/SettingsForm.tsx:77 | text without white space is left as it is |
| SettingsForm.SlugifyIdempotent | src/components/CourseCreation/SettingsForm.tsx:74-77 | deriving a slug from a generated slug gives it back |
| SettingsForm.HyphenateAtSpace | src/components/CourseCreation/SettingsForm.tsx:77 | a single space between a word and the rest becomes one hyphen |
| SettingsForm.SlugExample | src/components/CourseCreation/SettingsForm.tsx:74-77 | "Intro to React!" gives "intro-to-react" |
| SettingsForm.AutoSlug | src/components/CourseCreation/SettingsForm.tsx:72-81 | a slug is derived exactly when the slug is empty and the title is not, and it is the title's slug |
| SettingsForm.AutoSlugSettles | src/components/CourseCreation/SettingsForm.tsx:72-81 | once a non-empty slug is stored, the effect derives nothing more, so a title change never replaces it |
| SettingsForm.DripIntervalFrom | src/components/CourseCreation/SettingsForm.tsx:44-47 | the interval is at least 1: a parsed value of 1 or more is kept, and NaN, 0 and negatives give 1 |
| SettingsForm.ChangePayload | src/components/CourseCreation/SettingsForm.tsx:35-47 | each text, toggle or drip change is a one-key payload for its field, and the drip value is at least 1 |
| SettingsForm.SettingsEditKeepsGuarded | src/components/CourseCreation/SettingsForm.tsx:35-47 | each settings change writes only its field, keeps the guarded invariants, and stores the clamped drip interval |
| SettingsForm.NewObjective | src/components/CourseCreation/SettingsForm.tsx:49-54 | blank input adds nothing; other input adds its trimmed, non-empty text |
| SettingsForm.AddedObjectiveIsTrimmed | src/components/CourseCreation/SettingsForm.tsx:49-54 | the trimmed objective is appended last and has no surrounding white space |
| PricingForm.ClampPrice | src/components/CourseCreation/PricingForm.tsx:13-25 | the stored value is never negative: empty, unparseable or negative input stores 0, and a non-negative parse is stored as it is |
| PricingForm.PricingPayload | src/components/CourseCreation/PricingForm.tsx:13-25 | the same clamp writes the field the input names, price or discount price |
| PricingForm.PricingChangeKeepsGuarded | src/components/CourseCreation/PricingForm.tsx:13-25 | a pricing change writes only its own field and keeps the guarded invariants |
| PricingForm.EmptiedDiscountIsZero | src/components/CourseCreation/PricingForm.tsx:18-24 | an emptied discount field stores 0, not null |
| PricingForm.ClearDiscountPayload | src/components/CourseCreation/PricingForm.tsx:72 | Clear leaves any record without a discount price |
| PricingForm.ToggleIsPaidPayload | src/components/CourseCreation/PricingForm.tsx:27-29 | the paid toggle stores the switch value |
| PricingForm.ClearAndToggleWriteOnlyTheirField | src/components/CourseCreation/PricingForm.tsx:27-29 | Clear and the paid toggle write only their own field and keep the guarded invariants |
| MediaForm.UploadAction | src/components/CourseCreation/MediaForm.tsx:15-95 | something is dispatched exactly when a file was chosen, its MIME type has the slot's prefix and the upload succeeded; the slot then gets the preview URL and the file |
| MediaForm.RemoveEmptiesSlot | src/components/CourseCreation/MediaForm.tsx:97-103 | Remove sets exactly its own slot to url `''` and no file |
| MediaForm.MediaHandlersKeepKinds | src/components/CourseCreation/MediaForm.tsx:15-103 | the media handlers keep stored files of the slot's kind, touch only their own slot and store the preview URL, not the upload's URL |
| MediaForm.Media.HandleThumbnailUpload | src/components/CourseCreation/MediaForm.tsx:15-54 | the store changes as `UploadAction` says; an upload is requested only for an `image/` file, and the busy flag is down afterwards |
| MediaForm.Media.HandleVideoUpload | src/components/CourseCreation/MediaForm.tsx:56-95 | the store changes as `UploadAction` says; an upload is requested only for a `video/` file, and the busy flag is down afterwards |
| MediaForm.Media.HandleRemoveThumbnail | src/components/CourseCreation/MediaForm.tsx:97-99 | dispatches the thumbnail's remove action |
| MediaForm.Media.HandleRemoveVideo | src/components/CourseCreation/MediaForm.tsx:101-103 | dispatches the promo video's remove action |
| CurriculumBuilder.AcceptsLessonFile | src/components/CourseCreation/CurriculumBuilder.tsx:118-134 | a video lesson accepts exactly `video/` types, a document lesson exactly the three listed types, and notes anything |
| CurriculumBuilder.VideoAndDocumentGatesDisjoint | src/components/CourseCreation/CurriculumBuilder.tsx:118-134 | no MIME type passes both the video gate and the document gate |
| CurriculumBuilder.UploadKindFor | src/components/CourseCreation/CurriculumBuilder.tsx:76 | the upload kind is video exactly for video lessons, and document otherwise |
| CurriculumBuilder.SubmittedLesson | src/components/CourseCreation/CurriculumBuilder.tsx:70-98 | the lesson keeps the existing id, or takes a fresh one; a successful upload supplies the URL and the file's name, otherwise the existing lesson's file is kept |
| CurriculumBuilder.LessonSubmission | src/components/CourseCreation/CurriculumBuilder.tsx:60-113 | nothing is dispatched exactly for an empty title or a failed upload; an edit dispatches `updateLesson` on the lesson's id, and anything else `addLesson` |
| CurriculumBuilder.EditSubmissionKeepsIdAndType | src/components/CourseCreation/CurriculumBuilder.tsx:55-105 | with the type fixed in edit mode, an edit keeps the stored lesson's id, type and duration and takes the dialog's title and content |
| CurriculumBuilder.AddSubmissionIsUndoneByDelete | src/components/CourseCreation/CurriculumBuilder.tsx:91-110 | an add uses the fresh id, and deleting that id afterwards restores the record |
| CurriculumBuilder.LessonDialog.constructor | src/components/CourseCreation/CurriculumBuilder.tsx:54-58 | the dialog starts from the lesson's own title, type and content (or empty with type video) and no file |
| CurriculumBuilder.LessonDialog.SelectType | src/components/CourseCreation/CurriculumBuilder.tsx:157-160 | the type selector changes the type only outside edit mode |
| CurriculumBuilder.LessonDialog.HandleFileChange | src/components/CourseCreation/CurriculumBuilder.tsx:115-136 | a file is selected only when it passes the gate for the lesson type; a rejected file leaves the selection as it was |
| CurriculumBuilder.LessonDialog.ClearFile | src/components/CourseCreation/CurriculumBuilder.tsx:193-195 | the remove button clears the chosen file |
| CurriculumBuilder.LessonDialog.HandleSubmit | src/components/CourseCreation/CurriculumBuilder.tsx:60-113 | the store changes as `LessonSubmission` says; an upload of the lesson's kind is requested only for a titled dialog with a file |
| CurriculumBuilder.Builder.HandleAddModule | src/components/CourseCreation/CurriculumBuilder.tsx:254-277 | an empty title dispatches nothing; otherwise an empty module with the fresh id and the title is appended and the input clears; module ids stay distinct |
| CurriculumBuilder.Builder.HandleStartEditModule | src/components/CourseCreation/CurriculumBuilder.tsx:279-282 | remembers the module's id and title |
| CurriculumBuilder.Builder.HandleConfirmEditModule | src/components/CourseCreation/CurriculumBuilder.tsx:284-294 | renames only when an edit id is set and the title is non-empty, then clears the edit state; module ids stay distinct |
| CurriculumBuilder.Builder.HandleDeleteModule | src/components/CourseCreation/CurriculumBuilder.tsx:310-318 | deletes the module only when confirmed; module ids stay distinct |
| CurriculumBuilder.Builder.HandleDeleteLesson | src/components/CourseCreation/CurriculumBuilder.tsx:320-328 | deletes the lesson only when confirmed; module ids stay distinct |
| DashboardSlice.SortDesc | src/store/slices/dashboardSlice.ts:84-86 | the result is a permutation of the input sorted by the key, descending |
| DashboardSlice.InsertDesc | src/store/slices/dashboardSlice.ts:84-86 | insertion adds exactly the one course to the multiset |
| DashboardSlice.InsertDescSorted | src/store/slices/dashboardSlice.ts:84-86 | insertion into a descending list keeps it descending |
| DashboardSlice.InsertDescTies | src/store/slices/dashboardSlice.ts:84-86 | insertion puts the course ahead of the courses already there with the same key and leaves every other class of ties as it was |
| DashboardSlice.SortDescStable | src/store/slices/dashboardSlice.ts:84-86 | the sort is stable: courses with equal keys keep their input order |
| DashboardSlice.StrictOrderUnique | src/store/slices/dashboardSlice.ts:84-86 | a strictly descending list is the only descending arrangement of its elements |
| DashboardSlice.PopularCourses | src/store/slices/dashboardSlice.ts:84-86 | at most three courses, by enrolment descending, each drawn from the list |
| DashboardSlice.PopularAreTop | src/store/slices/dashboardSlice.ts:84-86 | no course left out has more enrolments than a chosen one |
| DashboardSlice.MockSortedByEnrolment | src/store/slices/dashboardSlice.ts:91-142 | the mock courses sorted by enrolment are Design, Machine Learning, React, TypeScript, Node |
| DashboardSlice.MockPopularCourses | src/store/slices/dashboardSlice.ts:229-231 | the mock popular courses are ids 3, 5 and 1 |
| DashboardSlice.FetchDashboardData | src/store/slices/dashboardSlice.ts:65-239 | the API path returns the response's courses sorted in place by enrolment, with their top three; the mock path returns the mock courses in their own order, with their top three |
| DashboardSlice.ApiPathReordersCourses | src/store/slices/dashboardSlice.ts:79-86 | two API courses in ascending enrolment come back swapped in `courses` |
| DashboardSlice.FetchDashboardDataIntended | src/store/slices/dashboardSlice.ts:79-86 | the API courses come back in the response's order, with the same popular courses |
| DashboardSlice.SetPublished | src/store/slices/dashboardSlice.ts:292-305 | only the first course with the id has its flag set, and the others are unchanged; an unknown id is a no-op |
| DashboardSlice.SetPublishedRoundTrip | src/store/slices/dashboardSlice.ts:292-305 | setting a flag and then setting the old flag back restores the list |
| DashboardSlice.DashboardStore.constructor | src/store/slices/dashboardSlice.ts:50-62 | empty lists, zero analytics, not loading, no error |
| DashboardSlice.DashboardStore.Pending | src/store/slices/dashboardSlice.ts:276-279 | loading, and the error is cleared |
| DashboardSlice.DashboardStore.Fulfilled | src/store/slices/dashboardSlice.ts:280-287 | not loading, and the five data fields are replaced from the payload |
| DashboardSlice.DashboardStore.Rejected | src/store/slices/dashboardSlice.ts:288-291 | not loading; the error is the payload when it is a non-empty string, and the default message otherwise |
| DashboardSlice.DashboardStore.PublishFulfilled | src/store/slices/dashboardSlice.ts:292-298 | the course with the id becomes published and nothing else changes |
| DashboardSlice.DashboardStore.UnpublishFulfilled | src/store/slices/dashboardSlice.ts:299-305 | the course with the id becomes unpublished and nothing else changes |
| CoursesList.FilteredCourses | src/components/Dashboard/CoursesList.tsx:72-76 | a course is kept exactly when it is published and published courses are shown, or unpublished and unpublished courses are shown |
| CoursesList.SortedAndFilteredCourses | src/components/Dashboard/CoursesList.tsx:71-88 | a permutation of the filtered courses, sorted descending by the chosen key |
| CoursesList.ListedIffShown | src/components/Dashboard/CoursesList.tsx:71-88 | a course is listed exactly when the toggles show it |
| CoursesList.BothTogglesOffShowNothing | src/components/Dashboard/CoursesList.tsx:72-76 | with both toggles off the list is empty and the empty-state message shows |
| CoursesList.BothTogglesOnListEverything | src/components/Dashboard/CoursesList.tsx:72-88 | with both toggles on every course is listed, once each |
| CoursesList.TiesKeepListOrder | src/components/Dashboard/CoursesList.tsx:77-88 | courses that tie on the chosen key are listed in their original order |
| CoursesList.StudentsSortOrdersByEnrolment | src/components/Dashboard/CoursesList.tsx:82 | the students sort lists courses by enrolment, descending |
| CoursesList.PublishedAndUnpublishedSplit | src/components/Dashboard/CoursesList.tsx:72-76 | the published-only and the unpublished-only lists together hold every course |
| CoursesList.PublishToggle | src/components/Dashboard/CoursesList.tsx:23-57 | a published course asks to be unpublished, and an unpublished one to be published, by its id |
| CoursesList.ToggleFlipsFlag | src/components/Dashboard/CoursesList.tsx:23-57 | the toggle flips the course's flag and leaves every other course as it was |
| CoursesList.ToggleTwiceRestores | src/components/Dashboard/CoursesList.tsx:23-57 | toggling twice restores the list |
| CoursesList.HandlePublishToggle | src/components/Dashboard/CoursesList.tsx:23-57 | the store's courses become those the chosen request's fulfilment gives |
| CoursePage.TotalDuration | src/pages/CoursePage.tsx:59 | the sum of the durations is not negative when no duration is |
| CoursePage.InitialProgress | src/pages/CoursePage.tsx:59-65 | nothing is completed or watched, and the total duration is the sum of the durations |
| CoursePage.MockTotalDuration | src/pages/CoursePage.tsx:45-65 | the mock lectures total 300 |
| CoursePage.CompleteLecture | src/pages/CoursePage.tsx:75-89 | the id is appended, the total is kept, the watched time is the duration of the completed lectures, and the progress is the completed share in percent |
| CoursePage.Percent | src/pages/CoursePage.tsx:86 | the percentage times the whole equals the part times 100 |
| CoursePage.PercentAtMostHundred | src/pages/CoursePage.tsx:86 | a part of the whole is between 0 and 100 percent |
| CoursePage.FilteredDurationAtMostTotal | src/pages/CoursePage.tsx:78-80 | the duration of any subset of the lectures is at most the total |
| CoursePage.WatchedAtMostTotal | src/pages/CoursePage.tsx:78-80 | the watched duration never exceeds the total duration |
| CoursePage.InitialProgressReachable | src/pages/CoursePage.tsx:59-65 | the page starts from a record whose total is the lectures' running time and whose completed list is empty |
| CoursePage.CompletedAtMostLectures | src/pages/CoursePage.tsx:143 | with distinct completed ids drawn from the lectures, no more ids are completed than there are lectures |
| CoursePage.GuardedCompletionKeepsReachable | src/pages/CoursePage.tsx:75-89 | completing a listed lecture whose button is enabled keeps the completed ids distinct and drawn from the lectures |
| CoursePage.GuardedCompletionStaysBounded | src/pages/CoursePage.tsx:75-143 | through the enabled button, progress stays within 0..100 and the watched time stays between 0 and both the lectures' running time and the record's own `totalDuration` |

## Left out

- Toasts, `console.error`, and the `isSaving`, `isSubmitting` and `isUploading` flags of the wizard and the lesson dialog are not modelled. They only report outcomes or block repeated clicks. The media form's two busy flags are modelled.
- Asynchronous ordering is not modelled. Each `await` becomes a parameter that carries its outcome.
- `uuidv4` is a `freshId` argument, with a precondition that the id is unused where that matters. `URL.createObjectURL` is a `previewUrl` argument. `confirm()` is a `confirmed` argument.
- The network, `saveCourse`, `getCategories` and the axios client are not modelled. A save is represented by the record handed to it.
- Numbers are Dafny reals and integers, not IEEE doubles. `parseFloat` and `parseInt` are `Option` results, where `None` stands for NaN.
- Slug derivation is ASCII only. It does not model Unicode lowercasing or the regular-expression engine's full `\s` set. `trim` uses the same ASCII white-space set.
- `CourseFormSlice.LessonPatch` can set an optional lesson field but cannot spread an explicit `undefined` into it.
- `CourseFormSlice.CourseFormStore.UpdateLearningObjective` does nothing for a negative index. In the source such a write creates a non-element property that no list operation sees.
- `CoursesList.SortedAndFilteredCourses`: date parsing is a `dateOf` argument, so invalid dates are not modelled. Ratings are reals. The model sorts by insertion, which is stable like `Array.prototype.sort` (see `DashboardSlice.SortDescStable`).
- `CoursePage.CompleteLecture` requires at least one lecture. The button that calls it exists only for a listed lecture, so a division by an empty lecture list never happens.
- Lecture and lesson durations are integers and reals respectively, as in the source's records. No units are modelled.
- `CourseFormSlice.CourseFormStore.ReorderModules` is modelled, but no component calls it.
- The lesson dialog's open handlers (`handleOpenAddLesson` and `handleOpenEditLesson`) are modelled as the dialog's constructor.
- Presentation components are not modelled: the dashboard summary, the popular-courses bars, recent activity, the header and the logo.
- The edit and view pages are not modelled. They only fetch and display.
- Where the design description and the code disagree, the model follows the code:
  - `updateLesson` also overwrites `type` when it is supplied.
  - `reorderModules` does not check for a permutation.
  - No reducer reports an unknown id; each one is a no-op.

## Findings

| source | as written | input that shows it | evidently intended | confidence | as-written member | corrected member |
|---|---|---|---|---|---|---|
| src/components/CourseCreation/CourseForm.tsx:51-110 | `handleSubmit` and `handleSaveDraft` dispatch the new status, then pass the `courseForm` value read at render to `saveCourse` | a valid draft course submitted: the saved record still says draft | save the record with the status just set | medium (not executed) | CourseForm.SavedStatusIsStale | CourseForm.SubmitIntended |
| src/store/slices/dashboardSlice.ts:79-86 | `.sort` runs in place on `coursesResponse.data`, which is also returned as `courses` | two courses with enrolments 10 then 20: `courses` comes back as 20, 10 | sort a copy, as the mock path does, and keep the API order | medium (not executed) | DashboardSlice.ApiPathReordersCourses | DashboardSlice.FetchDashboardDataIntended |
