/**
 * The journey sequencer `getInitialStepsForJourney` of
 * src/app/context/JourneyContext.tsx and the `findIndex` / `some` searches
 * the controller and the screens run over a step sequence.
 */
module Sequencer {
  import opened Catalog

  /** The hand-curated id list of each journey type. */
  function StepIds(t: JourneyType): seq<StepId> {
    match t
    case Ntb =>
      [Listed(Welcome), Listed(KycChoice), Listed(EkycHandler), Listed(ProfileDetails),
       Listed(VideoKyc), Listed(ReviewApplication), Listed(Complete)]
    case EtbNk =>
      [Listed(Welcome), Listed(KycChoice), Listed(EkycHandler), Listed(ReviewApplication), Listed(Complete)]
    case Etb =>
      [Listed(Welcome), Listed(AutoConversion), Listed(Complete)]
    case Journey2 =>
      [Listed(Welcome), Listed(LoanOffer), Listed(ReviewApplication), Listed(Complete)]
  }

  /** `ids.map(id => ALL_STEPS[id]).filter(Boolean)`: ids without an entry are dropped. */
  function PresentSteps(ids: seq<StepId>): (r: seq<Step>)
    ensures |r| <= |ids|
  {
    if ids == [] then []
    else if ids[0] in AllSteps() then [AllSteps()[ids[0]]] + PresentSteps(ids[1..])
    else PresentSteps(ids[1..])
  }

  /** When every id has an entry the filter drops nothing. */
  lemma {:induction false} PresentStepsKeepsAll(ids: seq<StepId>)
    requires forall i :: 0 <= i < |ids| ==> ids[i] in AllSteps()
    ensures |PresentSteps(ids)| == |ids|
    ensures forall i :: 0 <= i < |ids| ==> PresentSteps(ids)[i] == AllSteps()[ids[i]]
  {
    if ids != [] {
      PresentStepsKeepsAll(ids[1..]);
    }
  }

  /** `ALL_STEPS[id]` for an id known to have an entry (a placeholder step otherwise). */
  function CatalogStep(id: StepId): (r: Step)
    ensures r.id == id
    ensures id in AllSteps() ==> r == AllSteps()[id]
  {
    StepIdsMatchKeys();
    if id in AllSteps() then AllSteps()[id] else Step(id, "")
  }

  /** `getInitialStepsForJourney(t)`: the catalog entry of each id of `StepIds(t)`, in order. */
  function InitialSteps(t: JourneyType): (r: seq<Step>)
    ensures |r| == |StepIds(t)| >= 3
    ensures forall i :: 0 <= i < |r| ==> r[i].id == StepIds(t)[i]
  {
    var ids := StepIds(t);
    seq(|ids|, i requires 0 <= i < |ids| => CatalogStep(ids[i]))
  }

  /**
   * The source's `map(...).filter(Boolean)` drops nothing from the four lists,
   * so it yields exactly `InitialSteps(t)`.
   */
  lemma FilterDropsNothing(t: JourneyType)
    ensures PresentSteps(StepIds(t)) == InitialSteps(t)
  {
    var ids := StepIds(t);
    StepIdsWellShaped(t);
    forall i | 0 <= i < |ids| ensures ids[i] in AllSteps() {
      CatalogKeys(ids[i]);
    }
    PresentStepsKeepsAll(ids);
  }

  /** `steps.some(s => s.id === id)`. */
  predicate Contains(steps: seq<Step>, id: StepId) {
    exists i :: 0 <= i < |steps| && steps[i].id == id
  }

  /** `steps.findIndex(s => s.id === id)`: the first position holding `id`, or -1. */
  function IndexOfId(steps: seq<Step>, id: StepId): (r: int)
    ensures -1 <= r < |steps|
    ensures r == -1 <==> !Contains(steps, id)
    ensures r >= 0 ==> steps[r].id == id && forall j :: 0 <= j < r ==> steps[j].id != id
  {
    if steps == [] then -1
    else if steps[0].id == id then 0
    else
      var k := IndexOfId(steps[1..], id);
      assert forall j :: 1 <= j < |steps| ==> steps[j] == steps[1..][j - 1];
      if k == -1 then -1 else k + 1
  }

  /** In a sequence with distinct ids the position of `steps[i].id` is `i`. */
  lemma IndexOfDistinct(steps: seq<Step>, i: int)
    requires forall a, b :: 0 <= a < b < |steps| ==> steps[a].id != steps[b].id
    requires 0 <= i < |steps|
    ensures IndexOfId(steps, steps[i].id) == i
  {
  }

  /** At least three ids, welcome first, complete last, no repeats, each with a screen. */
  predicate WellShaped(ids: seq<StepId>) {
    && |ids| >= 3
    && ids[0] == Listed(Welcome) && ids[|ids| - 1] == Listed(Complete)
    && (forall a, b :: 0 <= a < b < |ids| ==> ids[a] != ids[b])
    && (forall i :: 0 <= i < |ids| ==> ids[i] in StepComponents())
  }

  /** The four hand-curated id lists are well shaped. */
  lemma StepIdsWellShaped(t: JourneyType)
    ensures WellShaped(StepIds(t))
  {
    var ids := StepIds(t);
    forall i | 0 <= i < |ids| ensures ids[i] in StepComponents() {
      CatalogKeys(ids[i]);
    }
    match t
    case Ntb =>
    case EtbNk =>
    case Etb =>
    case Journey2 =>
  }

  /**
   * Every journey's sequence has at least three steps, starts at welcome,
   * ends at complete, has distinct ids, and every id has a screen.
   */
  lemma SequenceShape(t: JourneyType)
    ensures var r := InitialSteps(t);
      && |r| >= 3
      && r[0].id == Listed(Welcome) && r[|r| - 1].id == Listed(Complete)
      && (forall a, b :: 0 <= a < b < |r| ==> r[a].id != r[b].id)
      && (forall i :: 0 <= i < |r| ==> r[i].id in StepComponents())
  {
    StepIdsWellShaped(t);
    ShapeCarries(StepIds(t), InitialSteps(t));
  }

  /** A step list whose ids are a well-shaped id list has the same shape. */
  lemma ShapeCarries(ids: seq<StepId>, r: seq<Step>)
    requires WellShaped(ids) && |r| == |ids|
    requires forall i :: 0 <= i < |r| ==> r[i].id == ids[i]
    ensures && |r| >= 3
      && r[0].id == Listed(Welcome) && r[|r| - 1].id == Listed(Complete)
      && (forall a, b :: 0 <= a < b < |r| ==> r[a].id != r[b].id)
      && (forall i :: 0 <= i < |r| ==> r[i].id in StepComponents())
  {
  }

  /**
   * Where kycChoice sits in each journey: second in the two journeys that
   * offer a KYC choice, absent from the other two.
   */
  lemma KycChoicePosition(t: JourneyType)
    ensures IndexOfId(InitialSteps(t), Listed(KycChoice)) == if t.Ntb? || t.EtbNk? then 1 else -1
  {
    var r := InitialSteps(t);
    assert forall i :: 0 <= i < |r| ==> r[i].id == StepIds(t)[i];
    if t.Ntb? || t.EtbNk? {
      assert r[1].id == Listed(KycChoice);
      assert Contains(r, Listed(KycChoice));
    } else {
      assert forall i :: 0 <= i < |r| ==> r[i].id != Listed(KycChoice);
    }
  }
}
