// The authoring wizard: step navigation, the form shown for each step,
// and the save-draft and submit handlers with their validation.

module CourseForm {
  import opened Wrappers
  import opened CourseFormSlice
  import opened CourseFormStepper

  /** The index of the last step, Settings. */
  const LastStep: int := 4

  /** handleNext: one step forward, never beyond the last step. */
  function NextStep(step: int): (r: int)
    ensures r <= LastStep
    ensures step < LastStep ==> r == step + 1
    ensures step >= LastStep ==> r == LastStep
  {
    if step + 1 < LastStep then step + 1 else LastStep
  }

  /** handlePrevious: one step back, never before the first step. */
  function PreviousStep(step: int): (r: int)
    ensures 0 <= r
    ensures step > 0 ==> r == step - 1
    ensures step <= 0 ==> r == 0
  {
    if step - 1 > 0 then step - 1 else 0
  }

  /** Next then previous returns to the step left, except from the last. */
  lemma PreviousUndoesNext(step: int)
    requires 0 <= step < LastStep
    ensures PreviousStep(NextStep(step)) == step
    ensures NextStep(PreviousStep(step + 1)) == step + 1
  {
  }

  datatype Nav = Next | Previous

  function Navigate(step: int, navs: seq<Nav>): int
    decreases |navs|
  {
    if navs == [] then step
    else Navigate(if navs[0] == Next then NextStep(step) else PreviousStep(step), navs[1..])
  }

  /** Any series of next and previous clicks keeps the step in the table. */
  lemma {:induction false} NavigationStaysInRange(step: int, navs: seq<Nav>)
    requires 0 <= step <= LastStep
    ensures 0 <= Navigate(step, navs) <= LastStep
    decreases |navs|
  {
    if navs != [] {
      var next := if navs[0] == Next then NextStep(step) else PreviousStep(step);
      NavigationStaysInRange(next, navs[1..]);
    }
  }

  method HandleNext(store: CourseFormStore)
    modifies store`currentStep
    ensures store.Snapshot() == Reduce(old(store.Snapshot()), SetCurrentStep(NextStep(old(store.currentStep))))
  {
    store.SetCurrentStep(NextStep(store.currentStep));
  }

  method HandlePrevious(store: CourseFormStore)
    modifies store`currentStep
    ensures store.Snapshot() == Reduce(old(store.Snapshot()), SetCurrentStep(PreviousStep(old(store.currentStep))))
  {
    store.SetCurrentStep(PreviousStep(store.currentStep));
  }

  datatype FormPanel = BasicInfoPanel | MediaPanel | CurriculumPanel | PricingPanel | SettingsPanel

  /** The step-bar label each form is shown under. */
  function PanelName(p: FormPanel): string {
    match p
    case BasicInfoPanel => "Basic Info"
    case MediaPanel => "Media"
    case CurriculumPanel => "Curriculum"
    case PricingPanel => "Pricing"
    case SettingsPanel => "Settings"
  }

  /**
   * renderStepContent: the form for the current step agrees with the step
   * bar's label for that step; any other step shows the basic-info form.
   */
  function RenderStepContent(step: int): (r: FormPanel)
    ensures 0 <= step < |Steps| ==> PanelName(r) == Steps[step].name
    ensures !(0 <= step < |Steps|) ==> r == BasicInfoPanel
  {
    if step == 1 then MediaPanel
    else if step == 2 then CurriculumPanel
    else if step == 3 then PricingPanel
    else if step == 4 then SettingsPanel
    else BasicInfoPanel
  }

  datatype PrimaryButton = NextButton | SubmitButton

  /** The right-hand button: Submit on the last step, Next everywhere else. */
  function PrimaryButtonAt(step: int): (r: PrimaryButton)
    ensures r == SubmitButton <==> step == LastStep
  {
    if step == LastStep then SubmitButton else NextButton
  }

  /** Previous is disabled exactly on the first step. */
  function PreviousEnabled(step: int): (r: bool)
    ensures r <==> step != 0
  {
    step != 0
  }

  datatype SubmitCheck = RedirectTo(step: int) | Accept

  /**
   * The validation in handleSubmit, first failure wins: a missing title
   * sends the author to step 0, else a missing curriculum to step 2.
   */
  function SubmitCheckOf(s: CourseFormState): (r: SubmitCheck)
    ensures r == RedirectTo(0) <==> s.title == ""
    ensures r == RedirectTo(2) <==> s.title != "" && s.modules == []
    ensures r == Accept <==> s.title != "" && s.modules != []
  {
    if s.title == "" then RedirectTo(0)
    else if |s.modules| == 0 then RedirectTo(2)
    else Accept
  }

  /** Only emptiness is checked: a blank title and empty modules pass. */
  lemma SubmitChecksOnlyEmptiness(s: CourseFormState)
    requires s.title == " "
    requires s.modules == [Module("m", "", [])]
    ensures SubmitCheckOf(s) == Accept
  {
  }

  /** The state a handler leaves and the record it hands to the save call. */
  datatype Submission = Submission(state: CourseFormState, saved: Option<CourseFormState>)

  /**
   * handleSubmit as written: a failed check only moves the step; a passed
   * check sets the status to submitted and saves the record read at render,
   * before that dispatch.
   */
  function Submit(s: CourseFormState): (r: Submission)
    ensures r.saved.Some? <==> SubmitCheckOf(s) == Accept
    ensures SubmitCheckOf(s).RedirectTo? ==>
      r.state == s.(currentStep := SubmitCheckOf(s).step)
    ensures SubmitCheckOf(s) == Accept ==>
      r.state == s.(status := Submitted) && r.saved == Some(s)
  {
    match SubmitCheckOf(s)
    case RedirectTo(k) => Submission(Reduce(s, SetCurrentStep(k)), None)
    case Accept => Submission(Reduce(s, SetCourseStatus(Submitted)), Some(s))
  }

  /** handleSaveDraft as written: no check; saves the record read at render. */
  function SaveDraft(s: CourseFormState): (r: Submission)
    ensures r.state == s.(status := Draft)
    ensures r.saved == Some(s)
  {
    Submission(Reduce(s, SetCourseStatus(Draft)), Some(s))
  }

  /** The saved record disagrees with the store about the status. */
  lemma SavedStatusIsStale(s: CourseFormState)
    ensures SubmitCheckOf(s) == Accept && s.status == Draft ==>
      Submit(s).saved.value.status == Draft && Submit(s).state.status == Submitted
    ensures s.status == Submitted ==>
      SaveDraft(s).saved.value.status == Submitted && SaveDraft(s).state.status == Draft
  {
  }

  /** handleSubmit as intended: the record saved is the one just submitted. */
  function SubmitIntended(s: CourseFormState): (r: Submission)
    ensures r.state == Submit(s).state
    ensures r.saved.Some? <==> SubmitCheckOf(s) == Accept
    ensures r.saved.Some? ==> r.saved.value == r.state && r.state.status == Submitted
  {
    var st := Submit(s).state;
    Submission(st, if SubmitCheckOf(s) == Accept then Some(st) else None)
  }

  /** handleSaveDraft as intended: the record saved carries the draft status. */
  function SaveDraftIntended(s: CourseFormState): (r: Submission)
    ensures r.state == SaveDraft(s).state
    ensures r.saved == Some(r.state) && r.state.status == Draft
  {
    var st := SaveDraft(s).state;
    Submission(st, Some(st))
  }

  method HandleSaveDraft(store: CourseFormStore) returns (saved: CourseFormState)
    modifies store`status
    ensures Submission(store.Snapshot(), Some(saved)) == SaveDraft(old(store.Snapshot()))
  {
    var rendered := store.Snapshot();
    store.SetCourseStatus(Draft);
    saved := rendered;
  }

  method HandleSubmit(store: CourseFormStore) returns (saved: Option<CourseFormState>)
    modifies store`currentStep, store`status
    ensures Submission(store.Snapshot(), saved) == Submit(old(store.Snapshot()))
  {
    var rendered := store.Snapshot();
    if rendered.title == "" {
      store.SetCurrentStep(0);
      saved := None;
      return;
    }
    if |rendered.modules| == 0 {
      store.SetCurrentStep(2);
      saved := None;
      return;
    }
    store.SetCourseStatus(Submitted);
    saved := Some(rendered);
  }
}
