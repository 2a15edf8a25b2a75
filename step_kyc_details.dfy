/**
 * The video-KYC declarations screen of src/app/components/steps/StepKycDetails.tsx:
 * two checkboxes, both mandatory, stored as they change; "I Agree" stores
 * both as given and moves the journey on.
 */
module KycDetailsStep {
  import opened Wrappers
  import opened FormData
  import opened Journey

  class Screen {
    var consent: bool
    var presentInIndia: bool
    var showErrors: bool

    /** Lines 12-14: both declarations start from the form data. */
    constructor (bag: Bag)
      ensures consent == IsTruthy(bag, "vkycConsent") && presentInIndia == IsTruthy(bag, "vkycPresentInIndia")
      ensures !showErrors
    {
      consent := IsTruthy(bag, "vkycConsent");
      presentInIndia := IsTruthy(bag, "vkycPresentInIndia");
      showErrors := false;
    }

    /** `isValid` (line 20). */
    predicate IsValid()
      reads this
    {
      consent && presentInIndia
    }

    /**
     * `handleAgree` (lines 22-28): errors are shown; without both
     * declarations nothing else happens; with them, both are stored as true
     * (which is what the screen holds) and the journey moves on.
     */
    method HandleAgree(p: Provider)
      requires p.Ready()
      modifies this`showErrors, p`formData, p`index, p`branch, p`bottomBar, p`store, p`resumeInUrl
      ensures showErrors && p.Ready() && (old(p.Valid()) ==> p.Valid()) && (old(p.InRange()) ==> p.InRange())
      ensures !IsValid() ==>
        && p.formData == old(p.formData) && p.index == old(p.index) && p.store == old(p.store) && p.branch == old(p.branch)
        && p.bottomBar == old(p.bottomBar) && p.resumeInUrl == old(p.resumeInUrl)
      ensures IsValid() ==>
        && p.formData == Merge(old(p.formData), map["vkycConsent" := Bool(consent), "vkycPresentInIndia" := Bool(presentInIndia)])
        && p.AdvancedAfterSaving(Capture(old(p.index), |p.steps|))
    {
      showErrors := true;
      if !IsValid() {
        return;
      }
      p.UpdateFormData(map["vkycConsent" := Bool(true), "vkycPresentInIndia" := Bool(true)]);
      p.NextStep();
    }

    /** The bottom-bar effect (lines 30-43): "I Agree", disabled until both declarations are given. */
    method SyncBottomBar(p: Provider)
      modifies p`bottomBar
      ensures p.bottomBar == Some(Bar("I Agree", !IsValid()))
    {
      p.SetBottomBar(Some(Bar("I Agree", !IsValid())));
    }

    /** The consent checkbox (lines 75-78): stored at once. */
    method OnConsentChange(p: Provider, checked: bool)
      modifies this`consent, p`formData, p`store
      ensures consent == checked
      ensures p.formData == old(p.formData)["vkycConsent" := Bool(checked)]
      ensures p.store == old(p.store).(formData := Held(p.formData))
    {
      consent := checked;
      p.UpdateFormData(map["vkycConsent" := Bool(checked)]);
    }

    /** The presence checkbox (lines 96-99): stored at once. */
    method OnPresentChange(p: Provider, checked: bool)
      modifies this`presentInIndia, p`formData, p`store
      ensures presentInIndia == checked
      ensures p.formData == old(p.formData)["vkycPresentInIndia" := Bool(checked)]
      ensures p.store == old(p.store).(formData := Held(p.formData))
    {
      presentInIndia := checked;
      p.UpdateFormData(map["vkycPresentInIndia" := Bool(checked)]);
    }
  }
}
