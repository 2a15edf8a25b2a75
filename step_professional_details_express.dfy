/**
 * The express profile screen of src/app/components/steps/StepProfessionalDetailsExpress.tsx:
 * prefilled income and nominee fields, confirmed in one press that writes
 * them all to the form data.
 */
module ProfessionalDetailsExpressStep {
  import opened Wrappers
  import opened Text
  import opened FormData
  import opened Journey

  class Screen {
    var annualIncome: string
    var nomineeName: string
    var nomineeRelation: string
    var nomineeDob: string
    var enableTransfer: bool
    var emailStatement: bool
    var isPep: Value
    var isConfirmed: bool
    /** The render `handleConfirm`'s timer was started from (lines 36-51). */
    var pendingAdvance: Option<Capture>

    /**
     * Lines 18-26: each field from the form data or its demo default; the two
     * preferences are on unless stored as `false`; `isPep` keeps a truthy
     * stored value and is `false` otherwise.
     */
    constructor (bag: Bag)
      ensures annualIncome == StrOr(bag, "annualIncome", "2000000")
      ensures nomineeName == StrOr(bag, "nomineeName", "Sunita Sharma")
      ensures nomineeRelation == StrOr(bag, "nomineeRelation", "Mother")
      ensures nomineeDob == StrOr(bag, "nomineeDob", "1965-03-15")
      ensures enableTransfer == NotFalse(bag, "enableTransfer") && emailStatement == NotFalse(bag, "emailStatement")
      ensures isPep == if IsTruthy(bag, "isPep") then bag["isPep"] else Bool(false)
      ensures !isConfirmed
      ensures pendingAdvance.None?
    {
      annualIncome := StrOr(bag, "annualIncome", "2000000");
      nomineeName := StrOr(bag, "nomineeName", "Sunita Sharma");
      nomineeRelation := StrOr(bag, "nomineeRelation", "Mother");
      nomineeDob := StrOr(bag, "nomineeDob", "1965-03-15");
      enableTransfer := NotFalse(bag, "enableTransfer");
      emailStatement := NotFalse(bag, "emailStatement");
      isPep := if IsTruthy(bag, "isPep") then bag["isPep"] else Bool(false);
      isConfirmed := false;
      pendingAdvance := None;
    }

    /** The object `handleConfirm` merges (lines 38-46). */
    function Payload(): (r: Bag)
      reads this
      ensures r.Keys == {"annualIncome", "nomineeName", "nomineeRelation", "nomineeDob", "enableTransfer", "emailStatement", "isPep"}
    {
      map["annualIncome" := Str(annualIncome), "nomineeName" := Str(nomineeName),
          "nomineeRelation" := Str(nomineeRelation), "nomineeDob" := Str(nomineeDob),
          "enableTransfer" := Bool(enableTransfer), "emailStatement" := Bool(emailStatement), "isPep" := isPep]
    }

    /**
     * `handleConfirm` (lines 36-51) up to its timer: the screen is confirmed
     * and all seven fields are merged into the form data, and a timer
     * holding the `nextStep` of this render starts. The handler has no
     * guard of its own; the disabled button is the only one.
     */
    method HandleConfirm(p: Provider)
      modifies this`isConfirmed, this`pendingAdvance, p`formData, p`store
      ensures isConfirmed && pendingAdvance == Some(Capture(p.index, |p.steps|))
      ensures p.formData == Merge(old(p.formData), Payload())
      ensures p.store == old(p.store).(formData := Held(p.formData))
    {
      isConfirmed := true;
      pendingAdvance := Some(Capture(p.index, |p.steps|));
      p.UpdateFormData(Payload());
    }

    /** The timer of `handleConfirm` (lines 48-50): the captured `nextStep` runs, advancing from the index of the click. */
    method ConfirmTimerFires(p: Provider)
      requires pendingAdvance.Some?
      modifies p`index, p`branch, p`bottomBar, p`store, p`resumeInUrl
      ensures p.AdvancedFrom(pendingAdvance.value)
      ensures old(p.Valid()) && pendingAdvance.value.length == |p.steps| ==> p.Valid()
      ensures old(p.InRange()) && pendingAdvance.value == Capture(old(p.index), |p.steps|) ==> p.InRange()
    {
      p.NextStepFrom(pendingAdvance.value);
    }

    /** The confirm button is disabled once confirmed, or while the nominee name or the income is empty (line 180). */
    predicate ConfirmDisabled()
      reads this
    {
      isConfirmed || nomineeName == "" || annualIncome == ""
    }

    /**
     * A press of the confirm button (lines 178-180): nothing while it is
     * disabled; otherwise `handleConfirm`. Once confirmed the button stays
     * disabled, so the seven fields are written and the timer started once.
     */
    method PressConfirm(p: Provider)
      modifies this`isConfirmed, this`pendingAdvance, p`formData, p`store
      ensures old(ConfirmDisabled()) ==>
        && isConfirmed == old(isConfirmed) && pendingAdvance == old(pendingAdvance)
        && p.formData == old(p.formData) && p.store == old(p.store)
      ensures !old(ConfirmDisabled()) ==>
        && isConfirmed && pendingAdvance == Some(Capture(p.index, |p.steps|))
        && p.formData == Merge(old(p.formData), Payload())
        && p.store == old(p.store).(formData := Held(p.formData))
      ensures old(isConfirmed) ==> pendingAdvance == old(pendingAdvance) && p.formData == old(p.formData)
      ensures ConfirmDisabled()
    {
      if ConfirmDisabled() {
        return;
      }
      HandleConfirm(p);
    }

    /** The income input (line 90): digits only. */
    method OnIncomeChange(value: string)
      modifies this`annualIncome
      ensures annualIncome == DigitsOnly(value)
    {
      annualIncome := DigitsOnly(value);
    }

    /** The PEP checkbox (line 168). */
    method OnPepChange(checked: bool)
      modifies this`isPep
      ensures isPep == Bool(checked)
    {
      isPep := Bool(checked);
    }
  }

}
