/**
 * The page selector `Home` of src/app/page.tsx: from the controller state it
 * picks the one screen on display and the key of the wrapper around it.
 */
module Home {
  import opened Wrappers
  import opened Catalog
  import opened Sequencer
  import opened Journey

  /** What fills the step wrapper. */
  datatype Body =
    | BranchScreen(branch: Component)
    | StepScreen(step: Component)
    /** `journeySteps[currentStepIndex]` is undefined: nothing is rendered. */
    | Blank
    /** The current id has no entry in `STEP_COMPONENTS`: the element type is `undefined`. */
    | Broken

  /** The dashboard, or the journey layout with one keyed wrapper. */
  datatype Screen = Dashboard | Framed(key: string, body: Body)

  /**
   * `Home` (lines 11-42): the dashboard whenever it is requested; otherwise the
   * branch screen when there is one, else the screen of the current step.
   * The wrapper key is `'branch'` for a branch, else the current id, falling
   * back to `'current'` when the index is out of range or the id is empty.
   */
  function View(showDashboard: bool, steps: seq<Step>, index: int, branch: Option<Component>): (r: Screen)
    ensures r.Dashboard? <==> showDashboard
    ensures !showDashboard && branch.Some? ==> r == Framed("branch", BranchScreen(branch.value))
    ensures !showDashboard && branch.None? ==>
      && (r.body.Blank? <==> !(0 <= index < |steps|))
      && (r.body.StepScreen? <==> CurrentComponent(steps, index).Some?)
      && (r.body.StepScreen? ==> r.body.step == CurrentComponent(steps, index).value)
      && (r.body.Broken? <==> 0 <= index < |steps| && steps[index].id !in StepComponents())
      && (r.key == if 0 <= index < |steps| && IdName(steps[index].id) != "" then IdName(steps[index].id) else "current")
  {
    if showDashboard then Dashboard
    else if branch.Some? then Framed("branch", BranchScreen(branch.value))
    else
      var key := if 0 <= index < |steps| && IdName(steps[index].id) != "" then IdName(steps[index].id) else "current";
      if !(0 <= index < |steps|) then Framed(key, Blank)
      else
        match ComponentFor(steps[index].id)
        case Some(c) => Framed(key, StepScreen(c))
        case None => Framed(key, Broken)
  }

  /** The page of a provider. */
  function Render(p: Provider): (r: Screen)
    reads p
    ensures r == View(p.showDashboard, p.steps, p.index, p.branch)
    ensures p.InRange() && !p.showDashboard && p.branch.None? ==> !r.body.Blank?
  {
    View(p.showDashboard, p.steps, p.index, p.branch)
  }

  /**
   * On any step of a canonical journey, with no branch and the dashboard
   * hidden, the page shows that step's screen under the step's own id.
   */
  lemma CanonicalStepRenders(t: JourneyType, i: int)
    requires 0 <= i < |InitialSteps(t)|
    ensures var s := InitialSteps(t)[i];
      View(false, InitialSteps(t), i, None) == Framed(IdName(s.id), StepScreen(StepComponents()[s.id]))
  {
    var r := InitialSteps(t);
    SequenceShape(t);
    var s := r[i];
    assert s.id in StepComponents();
    CatalogKeys(s.id);
    KeyNameNonEmpty(s.id.key);
  }
}
