// The wizard's step bar: a constant table of five steps, each shown as
// completed, current or upcoming relative to the current step; clicking a
// completed or upcoming label jumps straight to that step.

module CourseFormStepper {
  import opened Wrappers
  import opened CourseFormSlice

  datatype Step = Step(id: int, name: string)

  /** The steps in display order. */
  const Steps: seq<Step> := [
    Step(0, "Basic Info"),
    Step(1, "Media"),
    Step(2, "Curriculum"),
    Step(3, "Pricing"),
    Step(4, "Settings")
  ]

  /** Exactly five steps, and each step's id is its position. */
  lemma StepsTable()
    ensures |Steps| == 5
    ensures forall i :: 0 <= i < |Steps| ==> Steps[i].id == i
  {
  }

  datatype Phase = Completed | Current | Upcoming

  /** How a step is drawn, by comparing its id with the current step. */
  function Classify(currentStep: int, step: Step): (r: Phase)
    ensures r == Completed <==> currentStep > step.id
    ensures r == Current <==> currentStep == step.id
    ensures r == Upcoming <==> currentStep < step.id
  {
    if currentStep > step.id then Completed
    else if currentStep == step.id then Current
    else Upcoming
  }

  /**
   * From a step inside the table, the completed steps are exactly those
   * before it, the upcoming ones exactly those after it, and it is the
   * only current step.
   */
  lemma {:induction false} PhasesSplitTheTable(currentStep: int)
    requires 0 <= currentStep < |Steps|
    ensures forall i :: 0 <= i < |Steps| ==>
      (Classify(currentStep, Steps[i]) == Completed <==> i < currentStep)
    ensures forall i :: 0 <= i < |Steps| ==>
      (Classify(currentStep, Steps[i]) == Current <==> i == currentStep)
    ensures forall i :: 0 <= i < |Steps| ==>
      (Classify(currentStep, Steps[i]) == Upcoming <==> currentStep < i)
  {
    StepsTable();
  }

  /**
   * The step a click on a label selects: a completed or upcoming label
   * selects its own step; the current label has no click handler.
   */
  function ClickTarget(currentStep: int, step: Step): (r: Option<int>)
    ensures r.None? <==> Classify(currentStep, step) == Current
    ensures r.Some? ==> r.value == step.id
  {
    if Classify(currentStep, step) == Current then None else Some(step.id)
  }

  /** handleStepClick: dispatches setCurrentStep with the clicked id. */
  method HandleStepClick(store: CourseFormStore, id: int)
    modifies store`currentStep
    ensures store.Snapshot() == Reduce(old(store.Snapshot()), SetCurrentStep(id))
  {
    store.SetCurrentStep(id);
  }

  /**
   * A click on any label changes only the step, to a step of the table,
   * and never to the one already showing.
   */
  lemma ClickStaysInTable(s: CourseFormState, i: int)
    requires 0 <= i < |Steps|
    requires ClickTarget(s.currentStep, Steps[i]).Some?
    ensures var r := Reduce(s, SetCurrentStep(ClickTarget(s.currentStep, Steps[i]).value));
      && r == s.(currentStep := i)
      && 0 <= r.currentStep < |Steps|
      && r.currentStep != s.currentStep
  {
    StepsTable();
  }
}
