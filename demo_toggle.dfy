/**
 * The journey-type cycler of src/app/components/DemoToggle.tsx: each press
 * switches the controller to the next journey type and rewrites the demo PAN.
 */
module DemoToggle {
  import opened Wrappers
  import opened Catalog
  import opened FormData
  import opened Sequencer
  import opened Journey

  /** `JOURNEY_TYPES` (line 10). */
  function JourneyTypes(): seq<JourneyType> {
    [Ntb, EtbNk, Etb, Journey2]
  }

  /** `JOURNEY_TYPES.indexOf(t)`. */
  function TypeIndex(t: JourneyType): (r: nat)
    ensures r < |JourneyTypes()| && JourneyTypes()[r] == t
  {
    match t
    case Ntb => 0
    case EtbNk => 1
    case Etb => 2
    case Journey2 => 3
  }

  /** The type a press selects (lines 23-30): ntb when there is none, else the next in cyclic order. */
  function NextJourneyType(current: Option<JourneyType>): (r: JourneyType)
    ensures current.None? ==> r == Ntb
    ensures current.Some? ==> TypeIndex(r) == (TypeIndex(current.value) + 1) % 4
  {
    if current.None? then Ntb
    else JourneyTypes()[(TypeIndex(current.value) + 1) % |JourneyTypes()|]
  }

  /** The selected type always differs from the current one, and four presses come back to it. */
  lemma CycleProperties(t: JourneyType)
    ensures NextJourneyType(Some(t)) != t
    ensures NextJourneyType(Some(NextJourneyType(Some(NextJourneyType(Some(NextJourneyType(Some(t)))))))) == t
  {
  }

  /** The demo PAN written for a type (line 35): the ETB one exactly for etb. */
  function DemoPan(t: JourneyType): (r: string)
    ensures r == "EXSIT1234P" <==> t == Etb
    ensures r == "ABCDE1234E" <==> t != Etb
  {
    if t == Etb then "EXSIT1234P" else "ABCDE1234E"
  }

  /**
   * `cycleJourneyType` (lines 22-37): the controller switches to the next type,
   * which the guard of `setJourneyType` never suppresses, so the journey
   * restarts at index 0 of the new sequence; then the PAN is rewritten.
   */
  method CycleJourneyType(p: Provider)
    requires p.Ready()
    modifies p`journeyType, p`steps, p`index, p`branch, p`store, p`formData
    ensures p.InRange()
    ensures var next := NextJourneyType(old(p.journeyType));
      && p.journeyType == Some(next) && p.steps == InitialSteps(next) && p.index == 0 && p.branch.None?
      && p.formData == old(p.formData)["pan" := Str(DemoPan(next))]
      && p.store == old(p.store).(journeyType := Some(next), journeySteps := Held(p.steps), stepIndex := Held(0),
                                  branchStepId := None, formData := Held(p.formData))
  {
    var nextJourney := NextJourneyType(p.journeyType);
    if p.journeyType.Some? {
      CycleProperties(p.journeyType.value);
    }
    p.SetJourneyType(nextJourney);
    p.UpdateFormData(map["pan" := Str(DemoPan(nextJourney))]);
  }
}
