/**
 * The stand-alone nominee form of src/app/components/steps/StepNomineeDetails.tsx:
 * name and relation are required, and a relation can suggest a name.
 */
module NomineeDetailsStep {
  import opened Wrappers
  import opened Text
  import opened FormData
  import opened Journey
  import opened Nominee

  class Screen {
    var nomineeName: string
    var nomineeRelation: string
    var nomineeDob: string
    var nomineeAddress: string
    var isLoading: bool
    var showErrors: bool
    /** The render `handleContinue`'s timer was started from (lines 53-62). */
    var pendingAdvance: Option<Capture>

    /** Lines 14-19. */
    constructor (bag: Bag)
      ensures nomineeName == StrOr(bag, "nomineeName", "") && nomineeRelation == StrOr(bag, "nomineeRelation", "")
      ensures nomineeDob == StrOr(bag, "nomineeDob", "") && nomineeAddress == StrOr(bag, "nomineeAddress", "")
      ensures !isLoading && !showErrors
      ensures pendingAdvance.None?
    {
      nomineeName := StrOr(bag, "nomineeName", "");
      nomineeRelation := StrOr(bag, "nomineeRelation", "");
      nomineeDob := StrOr(bag, "nomineeDob", "");
      nomineeAddress := StrOr(bag, "nomineeAddress", "");
      isLoading := false;
      showErrors := false;
      pendingAdvance := None;
    }

    /** `isValid` (line 51). */
    predicate IsValid()
      reads this
    {
      nomineeName != "" && nomineeRelation != ""
    }

    /**
     * `handleContinue` (lines 53-62) up to its timer: errors are shown; an
     * invalid form writes nothing; a valid one starts loading, writes
     * exactly the four nominee fields and starts a timer holding the
     * `nextStep` of this render.
     */
    method HandleContinue(p: Provider)
      modifies this`showErrors, this`isLoading, this`pendingAdvance, p`formData, p`store
      ensures showErrors
      ensures !IsValid() ==>
        p.formData == old(p.formData) && p.store == old(p.store) && isLoading == old(isLoading)
        && pendingAdvance == old(pendingAdvance)
      ensures IsValid() ==>
        && isLoading && pendingAdvance == Some(Capture(p.index, |p.steps|))
        && p.formData.Keys == old(p.formData).Keys + {"nomineeName", "nomineeRelation", "nomineeDob", "nomineeAddress"}
        && p.formData["nomineeName"] == Str(nomineeName) && p.formData["nomineeRelation"] == Str(nomineeRelation)
        && p.formData["nomineeDob"] == Str(nomineeDob) && p.formData["nomineeAddress"] == Str(nomineeAddress)
        && (forall k :: k in old(p.formData) && k !in {"nomineeName", "nomineeRelation", "nomineeDob", "nomineeAddress"}
              ==> p.formData[k] == old(p.formData)[k])
        && p.store == old(p.store).(formData := Held(p.formData))
    {
      showErrors := true;
      if !IsValid() {
        return;
      }
      isLoading := true;
      pendingAdvance := Some(Capture(p.index, |p.steps|));
      p.UpdateFormData(map["nomineeName" := Str(nomineeName), "nomineeRelation" := Str(nomineeRelation),
                           "nomineeDob" := Str(nomineeDob), "nomineeAddress" := Str(nomineeAddress)]);
    }

    /**
     * The timer of `handleContinue` (lines 58-61): loading ends and the
     * captured `nextStep` runs, advancing from the index of the click.
     */
    method ContinueTimerFires(p: Provider)
      requires pendingAdvance.Some?
      modifies this`isLoading, p`index, p`branch, p`bottomBar, p`store, p`resumeInUrl
      ensures !isLoading && p.AdvancedFrom(pendingAdvance.value)
      ensures old(p.Valid()) && pendingAdvance.value.length == |p.steps| ==> p.Valid()
      ensures old(p.InRange()) && pendingAdvance.value == Capture(old(p.index), |p.steps|) ==> p.InRange()
    {
      isLoading := false;
      p.NextStepFrom(pendingAdvance.value);
    }

    /**
     * The relationship select (lines 114-118): the relation is set, and a
     * non-empty suggestion, built on the surname of lines 27-31, overwrites
     * the nominee's name.
     */
    method OnRelationChange(p: Provider, rel: string)
      modifies this`nomineeRelation, this`nomineeName
      ensures nomineeRelation == rel
      ensures FirstNameFor(rel).None? ==> nomineeName == old(nomineeName)
      ensures FirstNameFor(rel).Some? ==>
        var surname := Surname(NameOf(p.formData));
        nomineeName == FirstNameFor(rel).value + (if surname != "" then " " + surname else "")
    {
      nomineeRelation := rel;
      var suggested := Suggestion(rel, NameOf(p.formData));
      if suggested != "" {
        nomineeName := suggested;
      }
    }

    /** The bottom-bar effect (lines 64-77): the confirm button, disabled while loading or while the form is invalid. */
    method SyncBottomBar(p: Provider)
      modifies p`bottomBar
      ensures p.bottomBar == Some(Bar(if isLoading then "" else "Confirm Nominee", isLoading || !IsValid()))
    {
      p.SetBottomBar(Some(Bar(if isLoading then "" else "Confirm Nominee", isLoading || !IsValid())));
    }
  }
}
