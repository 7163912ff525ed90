/**
 * The breadcrumb bar of `components/breadcrumb-navbar.tsx`: three steps,
 * the last with three sub-steps; the current path selects the active step
 * and sub-step, and those decide which links are active or disabled.
 */
module BreadcrumbNavbar {

  datatype Page = Page(name: string, path: string)

  /** A step; a step without sub-steps has an empty list. */
  datatype Step = Step(page: Page, subSteps: seq<Page>)

  const Steps: seq<Step> := [
    Step(Page("Offers", "/"), []),
    Step(Page("Generated Documents", "/generated-documents"), []),
    Step(Page("Training", "/training"), [
      Page("Interview Recruiter", "/training/interview-recruiter"),
      Page("Interview Hiring Manager", "/training/interview-hiring-manager"),
      Page("Salary Negotiation", "/training/salary-negotiation")])
  ]

  /** The step's own path or one of its sub-steps' paths is `path`. */
  predicate StepMatches(step: Step, path: string) {
    step.page.path == path || exists j :: 0 <= j < |step.subSteps| && step.subSteps[j].path == path
  }

  /**
   * What the active step and sub-step must be for `path`: the last step
   * that matches; within it, the step's own path before any sub-step (-1
   * for no sub-step), else its last matching sub-step. No match at all
   * selects the first step and no sub-step.
   */
  predicate Resolution(steps: seq<Step>, path: string, active: int, sub: int) {
    if forall k :: 0 <= k < |steps| ==> !StepMatches(steps[k], path) then
      active == 0 && sub == -1
    else
      && 0 <= active < |steps|
      && StepMatches(steps[active], path)
      && (forall k :: active < k < |steps| ==> !StepMatches(steps[k], path))
      && var subs := steps[active].subSteps;
      if steps[active].page.path == path then sub == -1
      else
        && 0 <= sub < |subs| && subs[sub].path == path
        && forall j :: sub < j < |subs| ==> subs[j].path != path
  }

  /** The resolution leaves no choice: any two for the same path agree. */
  lemma ResolutionUnique(steps: seq<Step>, path: string, a1: int, s1: int, a2: int, s2: int)
    requires Resolution(steps, path, a1, s1) && Resolution(steps, path, a2, s2)
    ensures a1 == a2 && s1 == s2
  {
  }

  /**
   * On the bar's own steps every listed path selects its step, and a
   * sub-step's path selects the Training step and that sub-step; any other
   * path selects Offers.
   */
  lemma StepsResolve(path: string)
    ensures forall i :: 0 <= i < 3 ==> Resolution(Steps, Steps[i].page.path, i, -1)
    ensures forall j :: 0 <= j < 3 ==> Resolution(Steps, Steps[2].subSteps[j].path, 2, j)
    ensures (forall k :: 0 <= k < 3 ==> !StepMatches(Steps[k], path)) ==> Resolution(Steps, path, 0, -1)
  {
    var subs := Steps[2].subSteps;
    assert !StepMatches(Steps[1], "/") && !StepMatches(Steps[2], "/");
    assert !StepMatches(Steps[2], "/generated-documents");
    assert forall j :: 0 <= j < 3 ==> subs[j].path != "/training";
    forall j | 0 <= j < 3 ensures Resolution(Steps, subs[j].path, 2, j) {
      assert Steps[2].page.path != subs[j].path;
      assert forall j' :: j < j' < 3 ==> subs[j'].path != subs[j].path;
    }
  }

  // ---------------------------------------------------------------------
  // Rendering

  /** A step is shown as the current one exactly at the active index. */
  predicate StepActive(index: int, activeStep: int) {
    index == activeStep
  }

  /** A step after the active one is shown greyed out, without a link. */
  predicate StepDisabled(index: int, activeStep: int) {
    index > activeStep
  }

  /** The sub-step list is shown only under the active step, and only when it has sub-steps. */
  predicate SubStepsShown(step: Step, index: int, activeStep: int) {
    StepActive(index, activeStep) && |step.subSteps| > 0
  }

  /** A sub-step after the active one is shown greyed out, without a link. */
  predicate SubStepDisabled(subIndex: int, activeSubStep: int) {
    subIndex > activeSubStep
  }

  /**
   * What the bar shows once `updateActiveStep` has resolved `path`: the
   * indices read are in range; when some step leads to the path, the active
   * step is one that does, and no disabled step does; the sub-step list
   * appears only under the active step; the active sub-step is a link to the
   * path, and on the step's own path every sub-step is disabled; a disabled
   * sub-step leads to the path only when the step itself does.
   */
  lemma RenderRules(steps: seq<Step>, path: string, activeStep: int, activeSubStep: int)
    requires |steps| > 0 && Resolution(steps, path, activeStep, activeSubStep)
    ensures 0 <= activeStep < |steps| && -1 <= activeSubStep < |steps[activeStep].subSteps|
    ensures (exists i :: 0 <= i < |steps| && StepMatches(steps[i], path)) ==> StepMatches(steps[activeStep], path)
    ensures forall i :: 0 <= i < |steps| && StepDisabled(i, activeStep) ==> !StepMatches(steps[i], path)
    ensures forall i :: 0 <= i < |steps| ==>
      (SubStepsShown(steps[i], i, activeStep) <==> i == activeStep && |steps[i].subSteps| > 0)
    ensures 0 <= activeSubStep ==>
      && !SubStepDisabled(activeSubStep, activeSubStep)
      && steps[activeStep].subSteps[activeSubStep].path == path
    ensures steps[activeStep].page.path == path ==>
      forall j :: 0 <= j < |steps[activeStep].subSteps| ==> SubStepDisabled(j, activeSubStep)
    ensures forall j ::
      (0 <= j < |steps[activeStep].subSteps| && SubStepDisabled(j, activeSubStep)
        && steps[activeStep].subSteps[j].path == path) ==> steps[activeStep].page.path == path
  {
  }

  class Navbar {
    var activeStep: int
    var activeSubStep: int

    /** The first render: the first step, no sub-step. */
    constructor ()
      ensures activeStep == 0 && activeSubStep == -1
    {
      activeStep := 0;
      activeSubStep := -1;
    }

    /**
     * `updateActiveStep`: the steps are searched from the last to the first,
     * each step's own path before its sub-steps, those from the last to the
     * first; the first match is stored, and no match stores the first step.
     */
    method UpdateActiveStep(pathname: string)
      modifies this
      ensures Resolution(Steps, pathname, activeStep, activeSubStep)
    {
      for i := |Steps| downto 0
        invariant forall k :: i <= k < |Steps| ==> !StepMatches(Steps[k], pathname)
      {
        if pathname == Steps[i].page.path {
          activeStep, activeSubStep := i, -1;
          return;
        }
        var subSteps := Steps[i].subSteps;
        for j := |subSteps| downto 0
          invariant forall j' :: j <= j' < |subSteps| ==> subSteps[j'].path != pathname
        {
          if pathname == subSteps[j].path {
            activeStep, activeSubStep := i, j;
            return;
          }
        }
      }
      activeStep, activeSubStep := 0, -1;
    }
  }
}
