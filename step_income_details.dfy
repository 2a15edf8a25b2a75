/**
 * The income screen of src/app/components/steps/StepIncomeDetails.tsx: an
 * occupation and a digits-only income, written to the form data before the
 * journey moves on.
 */
module IncomeDetailsStep {
  import opened Wrappers
  import opened Text
  import opened FormData
  import opened Journey

  class Screen {
    var income: string
    var occupation: string
    var isLoading: bool
    /** The render `handleContinue`'s timer was started from (lines 18-25). */
    var pendingAdvance: Option<Capture>

    /** Lines 14-16. */
    constructor (bag: Bag)
      ensures income == StrOr(bag, "income", "") && occupation == StrOr(bag, "occupation", "") && !isLoading
      ensures pendingAdvance.None?
    {
      income := StrOr(bag, "income", "");
      occupation := StrOr(bag, "occupation", "");
      isLoading := false;
      pendingAdvance := None;
    }

    /** The button is disabled while loading or while either field is empty (line 76). */
    predicate ButtonDisabled()
      reads this
    {
      isLoading || income == "" || occupation == ""
    }

    /**
     * `handleContinue` (lines 18-25) up to its timer: loading starts and both
     * fields are merged into the form data, and a timer holding the
     * `nextStep` of this render starts. The handler has no guard of its
     * own; the disabled button is the only one.
     */
    method HandleContinue(p: Provider)
      modifies this`isLoading, this`pendingAdvance, p`formData, p`store
      ensures isLoading && pendingAdvance == Some(Capture(p.index, |p.steps|))
      ensures p.formData == Merge(old(p.formData), map["income" := Str(income), "occupation" := Str(occupation)])
      ensures p.store == old(p.store).(formData := Held(p.formData))
    {
      isLoading := true;
      pendingAdvance := Some(Capture(p.index, |p.steps|));
      p.UpdateFormData(map["income" := Str(income), "occupation" := Str(occupation)]);
    }

    /**
     * The timer of `handleContinue` (lines 21-24): loading ends and the
     * captured `nextStep` runs, advancing from the index of the click.
     */
    method ContinueTimerFires(p: Provider)
      requires pendingAdvance.Some?
      modifies this`isLoading, p`index, p`branch, p`bottomBar, p`store, p`resumeInUrl
      ensures !isLoading && p.AdvancedFrom(pendingAdvance.value)
      ensures old(p.Valid()) && pendingAdvance.value.length == |p.steps| ==> p.Valid()
      ensures old(p.InRange()) && pendingAdvance.value == Capture(old(p.index), |p.steps|) ==> p.InRange()
    {
      isLoading := false;
      p.NextStepFrom(pendingAdvance.value);
    }

    /**
     * A press of the button (lines 74-76): nothing while it is disabled;
     * otherwise `handleContinue`, which then stores a non-empty income and
     * occupation and starts the only timer.
     */
    method PressContinue(p: Provider)
      modifies this`isLoading, this`pendingAdvance, p`formData, p`store
      ensures old(ButtonDisabled()) ==>
        && isLoading == old(isLoading) && pendingAdvance == old(pendingAdvance)
        && p.formData == old(p.formData) && p.store == old(p.store)
      ensures !old(ButtonDisabled()) ==>
        && isLoading && pendingAdvance == Some(Capture(p.index, |p.steps|))
        && p.formData == Merge(old(p.formData), map["income" := Str(income), "occupation" := Str(occupation)])
        && p.formData["income"] != Str("") && p.formData["occupation"] != Str("")
        && p.store == old(p.store).(formData := Held(p.formData))
      ensures ButtonDisabled()
    {
      if ButtonDisabled() {
        return;
      }
      HandleContinue(p);
    }

    /** The income input (line 65): digits only. */
    method OnIncomeChange(value: string)
      modifies this`income
      ensures income == DigitsOnly(value)
    {
      income := DigitsOnly(value);
    }
  }
}
