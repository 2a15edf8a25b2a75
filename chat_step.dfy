/**
 * The render rule of the chat-style screens (StepProfessionalDetailsExpress.tsx
 * and StepAccountConversion.tsx, lines 28-30 and 53-69 of the former): each
 * looks up its own id in the sequence, shows a summary once the user is past
 * it, its form while it is current, and nothing otherwise.
 */
module ChatStep {
  import opened Catalog
  import opened Sequencer

  datatype Mode = History | Active | Hidden

  /**
   * `isHistory` / `isActive`: a summary when the first position of `id` lies
   * before the current index, the form when it is the current index (which,
   * for an id that is absent, is the index -1), nothing otherwise.
   */
  function ModeOf(steps: seq<Step>, current: int, id: StepId): (r: Mode)
    ensures r == History <==> exists j :: 0 <= j < current && j < |steps| && steps[j].id == id
    ensures r == Active <==>
      || (current == -1 && !Contains(steps, id))
      || (0 <= current < |steps| && steps[current].id == id && forall j :: 0 <= j < current ==> steps[j].id != id)
  {
    var mine := IndexOfId(steps, id);
    if mine != -1 && mine < current then History
    else if mine == current then Active
    else Hidden
  }

  /**
   * In a sequence whose ids are distinct, a screen is active exactly at its
   * own position and shows its summary at every later one.
   */
  lemma ModeAtOwnPosition(steps: seq<Step>, k: int, current: int)
    requires forall i, j :: 0 <= i < j < |steps| ==> steps[i].id != steps[j].id
    requires 0 <= k < |steps| && 0 <= current < |steps|
    ensures ModeOf(steps, current, steps[k].id) == if current < k then Hidden else if current == k then Active else History
  {
    assert IndexOfId(steps, steps[k].id) == k;
  }

  /**
   * A screen looking for an id that is not a catalog key is never shown
   * while the index is in range of a sequence of catalog steps.
   */
  lemma UnlistedIdHidden(steps: seq<Step>, current: int, id: StepId)
    requires forall i :: 0 <= i < |steps| ==> steps[i].id.Listed?
    requires current >= 0 && id.Unlisted?
    ensures ModeOf(steps, current, id) == Hidden
  {
    assert !Contains(steps, id);
  }
}
