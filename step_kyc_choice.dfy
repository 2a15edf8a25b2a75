/**
 * The KYC-method screen of src/app/components/steps/StepKycChoice.tsx: the
 * choice is recorded in the form data, then physical KYC truncates the
 * journey and e-KYC restores it or moves on.
 */
module KycChoiceStep {
  import opened Wrappers
  import opened Catalog
  import opened FormData
  import opened Sequencer
  import opened Journey

  datatype KycMethod = Ekyc | Physical

  function MethodName(m: KycMethod): string {
    match m
    case Ekyc => "ekyc"
    case Physical => "physicalKyc"
  }

  class Screen {
    var selectedMethod: Option<Value>

    /** Line 18: the method already in the form data, if any. */
    constructor (formData: Bag)
      ensures selectedMethod == if IsTruthy(formData, "kycMethod") then Some(formData["kycMethod"]) else None
    {
      selectedMethod := if IsTruthy(formData, "kycMethod") then Some(formData["kycMethod"]) else None;
    }

    /**
     * `handleChoice` (lines 24-43). The method is written to the form data
     * first. Physical KYC truncates the journey to [welcome, kycChoice] and
     * leaves the user on its last step, from which `nextStep` goes nowhere;
     * e-KYC restores the full journey when the e-KYC step is missing (as after
     * a physical choice), and otherwise moves on with `nextStep`. The journey
     * type itself is never changed.
     */
    method HandleChoice(p: Provider, m: KycMethod)
      requires p.Ready()
      modifies this`selectedMethod, p`formData, p`store, p`steps, p`index, p`branch, p`bottomBar, p`resumeInUrl
      ensures selectedMethod == Some(Str(MethodName(m)))
      ensures p.formData == old(p.formData)["kycMethod" := Str(MethodName(m))]
      ensures p.Ready() && (old(p.Valid()) ==> p.Valid())
      ensures p.journeyType.None? && !(m == Ekyc && Contains(old(p.steps), Listed(EkycHandler))) ==>
        && p.steps == old(p.steps) && p.index == old(p.index) && p.branch == old(p.branch)
        && p.bottomBar == old(p.bottomBar) && p.resumeInUrl == old(p.resumeInUrl)
        && p.store == old(p.store).(formData := Held(p.formData))
      ensures m == Physical && p.journeyType.Some? ==>
        && p.steps == [AllSteps()[Listed(Welcome)], AllSteps()[Listed(KycChoice)]]
        && p.index == |p.steps| - 1 == 1 && p.branch.None?
        && !Contains(p.steps, Listed(EkycHandler))
        && p.bottomBar == old(p.bottomBar) && p.resumeInUrl == old(p.resumeInUrl)
        && p.store == old(p.store).(formData := Held(p.formData), journeySteps := Held(p.steps),
                                    stepIndex := Held(1), branchStepId := None)
      ensures m == Ekyc && !Contains(old(p.steps), Listed(EkycHandler)) && p.journeyType.Some? ==>
        && p.steps == InitialSteps(p.journeyType.value)
        && p.index == DigitalTarget(p.journeyType.value) && p.branch.None?
        && p.bottomBar == old(p.bottomBar) && p.resumeInUrl == old(p.resumeInUrl)
        && p.store == old(p.store).(formData := Held(p.formData), journeySteps := Held(p.steps),
                                    stepIndex := Held(p.index), branchStepId := None)
      ensures m == Ekyc && Contains(old(p.steps), Listed(EkycHandler)) ==>
        && p.steps == old(p.steps)
        && p.AdvancedAfterSaving(Capture(old(p.index), |p.steps|))
        && (!(old(p.resumeInUrl) && old(p.index) == 0) ==>
              p.index == if old(p.index) < |p.steps| - 1 then old(p.index) + 1 else old(p.index))
    {
      selectedMethod := Some(Str(MethodName(m)));
      p.UpdateFormData(map["kycMethod" := Str(MethodName(m))]);
      Route(p, m);
    }

    /** The navigation half of `handleChoice` (lines 30-42): it leaves the form data alone. */
    static method Route(p: Provider, m: KycMethod)
      requires p.Ready()
      modifies p`store, p`steps, p`index, p`branch, p`bottomBar, p`resumeInUrl
      ensures p.Ready() && (old(p.Valid()) ==> p.Valid())
      ensures p.journeyType.None? && !(m == Ekyc && Contains(old(p.steps), Listed(EkycHandler))) ==>
        && p.steps == old(p.steps) && p.index == old(p.index) && p.branch == old(p.branch)
        && p.bottomBar == old(p.bottomBar) && p.resumeInUrl == old(p.resumeInUrl) && p.store == old(p.store)
      ensures m == Physical && p.journeyType.Some? ==>
        && p.steps == [AllSteps()[Listed(Welcome)], AllSteps()[Listed(KycChoice)]]
        && p.index == |p.steps| - 1 == 1 && p.branch.None?
        && !Contains(p.steps, Listed(EkycHandler))
        && p.bottomBar == old(p.bottomBar) && p.resumeInUrl == old(p.resumeInUrl)
        && p.store == old(p.store).(journeySteps := Held(p.steps), stepIndex := Held(1), branchStepId := None)
      ensures m == Ekyc && !Contains(old(p.steps), Listed(EkycHandler)) && p.journeyType.Some? ==>
        && p.steps == InitialSteps(p.journeyType.value)
        && p.index == DigitalTarget(p.journeyType.value) && p.branch.None?
        && p.bottomBar == old(p.bottomBar) && p.resumeInUrl == old(p.resumeInUrl)
        && p.store == old(p.store).(journeySteps := Held(p.steps), stepIndex := Held(p.index), branchStepId := None)
      ensures m == Ekyc && Contains(old(p.steps), Listed(EkycHandler)) ==>
        && p.steps == old(p.steps)
        && p.AdvancedFrom(Capture(old(p.index), |p.steps|))
        && (!(old(p.resumeInUrl) && old(p.index) == 0) ==>
              p.index == if old(p.index) < |p.steps| - 1 then old(p.index) + 1 else old(p.index))
    {
      if m == Physical {
        p.SwitchToPhysicalKycFlow();
      } else if !Contains(p.steps, Listed(EkycHandler)) {
        p.SwitchToDigitalKycFlow();
      } else {
        p.NextStep();
      }
    }
  }

  /**
   * After the physical choice the e-KYC step is gone, so a later e-KYC
   * choice of a journey that offers one lands just past kycChoice, at index 2.
   */
  lemma DigitalReturnsPastChoice(t: JourneyType)
    requires t.Ntb? || t.EtbNk?
    ensures !Contains([AllSteps()[Listed(Welcome)], AllSteps()[Listed(KycChoice)]], Listed(EkycHandler))
    ensures IndexOfId(InitialSteps(t), Listed(KycChoice)) + 1 == 2
  {
    KycChoicePosition(t);
    StepIdsMatchKeys();
    var short := [AllSteps()[Listed(Welcome)], AllSteps()[Listed(KycChoice)]];
    assert short[0].id == Listed(Welcome) && short[1].id == Listed(KycChoice);
  }
}
