/**
 * The personal-details form of src/app/components/steps/StepCombinedDetails.tsx:
 * contact, family, address and income fields with an optional nominee,
 * validated and written to the form data in one merge.
 */
module CombinedDetailsStep {
  import opened Wrappers
  import opened Text
  import opened FormData
  import opened Journey
  import opened Nominee

  class Screen {
    var email: string
    var fatherName: string
    var motherName: string
    var maritalStatus: string
    var currentAddress: string
    var communicationAddress: string
    var sameAsCurrentAddress: bool
    var incomeRange: string
    var wantsNominee: bool
    var nomineeName: string
    var nomineeRelation: string
    var nomineeDob: string
    var nomineeAddress: string
    var isPep: bool
    var isIndianNational: bool
    var isTaxResidentIndiaOnly: bool
    var isLoading: bool
    var showErrors: bool
    /** The render `handleContinue`'s timer was started from (lines 84-119). */
    var pendingAdvance: Option<Capture>

    /**
     * Lines 15-32: text fields from the form data or empty, the flags by
     * truthiness, the two residency flags true unless stored as `false`.
     */
    constructor (bag: Bag)
      ensures email == StrOr(bag, "email", "") && fatherName == StrOr(bag, "fatherName", "")
      ensures motherName == StrOr(bag, "motherName", "") && maritalStatus == StrOr(bag, "maritalStatus", "")
      ensures currentAddress == StrOr(bag, "currentAddress", "")
      ensures communicationAddress == StrOr(bag, "communicationAddress", "")
      ensures sameAsCurrentAddress == IsTruthy(bag, "sameAsCurrentAddress")
      ensures incomeRange == StrOr(bag, "incomeRange", "")
      ensures wantsNominee == IsTruthy(bag, "wantsNominee")
      ensures nomineeName == StrOr(bag, "nomineeName", "") && nomineeRelation == StrOr(bag, "nomineeRelation", "")
      ensures nomineeDob == StrOr(bag, "nomineeDob", "") && nomineeAddress == StrOr(bag, "nomineeAddress", "")
      ensures isPep == IsTruthy(bag, "isPep")
      ensures isIndianNational == NotFalse(bag, "isIndianNational")
      ensures isTaxResidentIndiaOnly == NotFalse(bag, "isTaxResidentIndiaOnly")
      ensures !isLoading && !showErrors
      ensures pendingAdvance.None?
    {
      email := StrOr(bag, "email", "");
      fatherName := StrOr(bag, "fatherName", "");
      motherName := StrOr(bag, "motherName", "");
      maritalStatus := StrOr(bag, "maritalStatus", "");
      currentAddress := StrOr(bag, "currentAddress", "");
      communicationAddress := StrOr(bag, "communicationAddress", "");
      sameAsCurrentAddress := IsTruthy(bag, "sameAsCurrentAddress");
      incomeRange := StrOr(bag, "incomeRange", "");
      wantsNominee := IsTruthy(bag, "wantsNominee");
      nomineeName := StrOr(bag, "nomineeName", "");
      nomineeRelation := StrOr(bag, "nomineeRelation", "");
      nomineeDob := StrOr(bag, "nomineeDob", "");
      nomineeAddress := StrOr(bag, "nomineeAddress", "");
      isPep := IsTruthy(bag, "isPep");
      isIndianNational := NotFalse(bag, "isIndianNational");
      isTaxResidentIndiaOnly := NotFalse(bag, "isTaxResidentIndiaOnly");
      isLoading := false;
      showErrors := false;
      pendingAdvance := None;
    }

    /** `isFormValid` (lines 74-82). */
    predicate IsFormValid()
      reads this`email, this`fatherName, this`motherName, this`maritalStatus, this`currentAddress, this`communicationAddress, this`sameAsCurrentAddress, this`incomeRange,
        this`wantsNominee, this`nomineeName, this`nomineeRelation, this`nomineeDob, this`nomineeAddress
    {
      && email != "" && fatherName != "" && motherName != "" && maritalStatus != ""
      && currentAddress != "" && incomeRange != ""
      && (sameAsCurrentAddress || communicationAddress != "")
      && (!wantsNominee || (nomineeName != "" && nomineeRelation != ""))
    }

    /** The contact, family, address and income part of the payload (lines 97-104). */
    function Details(): (r: Bag)
      reads this`email, this`fatherName, this`motherName, this`maritalStatus, this`currentAddress, this`communicationAddress, this`sameAsCurrentAddress, this`incomeRange
      ensures "communicationAddress" in r
      ensures r["communicationAddress"] == Str(if sameAsCurrentAddress then currentAddress else communicationAddress)
      ensures "wantsNominee" !in r
    {
      map[
        "email" := Str(email),
        "fatherName" := Str(fatherName),
        "motherName" := Str(motherName),
        "maritalStatus" := Str(maritalStatus),
        "currentAddress" := Str(currentAddress),
        "communicationAddress" := Str(if sameAsCurrentAddress then currentAddress else communicationAddress),
        "sameAsCurrentAddress" := Bool(sameAsCurrentAddress),
        "incomeRange" := Str(incomeRange)]
    }

    /** The nominee part of the payload (lines 105-109): blank fields without a nominee. */
    function NomineePart(): (r: Bag)
      reads this`wantsNominee, this`nomineeName, this`nomineeRelation, this`nomineeDob, this`nomineeAddress
      ensures r.Keys == {"wantsNominee", "nomineeName", "nomineeRelation", "nomineeDob", "nomineeAddress"}
      ensures r["wantsNominee"] == Bool(wantsNominee)
      ensures !wantsNominee ==>
        r["nomineeName"] == r["nomineeRelation"] == r["nomineeDob"] == r["nomineeAddress"] == Str("")
      ensures wantsNominee ==>
        && r["nomineeName"] == Str(nomineeName) && r["nomineeRelation"] == Str(nomineeRelation)
        && r["nomineeDob"] == Str(nomineeDob) && r["nomineeAddress"] == Str(nomineeAddress)
    {
      map[
        "wantsNominee" := Bool(wantsNominee),
        "nomineeName" := Str(if wantsNominee then nomineeName else ""),
        "nomineeRelation" := Str(if wantsNominee then nomineeRelation else ""),
        "nomineeDob" := Str(if wantsNominee then nomineeDob else ""),
        "nomineeAddress" := Str(if wantsNominee then nomineeAddress else "")]
    }

    /** The declaration part of the payload (lines 110-112). */
    function Declarations(): (r: Bag)
      reads this`isPep, this`isIndianNational, this`isTaxResidentIndiaOnly
      ensures r.Keys == {"isPep", "isIndianNational", "isTaxResidentIndiaOnly"}
    {
      map[
        "isPep" := Bool(isPep),
        "isIndianNational" := Bool(isIndianNational),
        "isTaxResidentIndiaOnly" := Bool(isTaxResidentIndiaOnly)]
    }

    /**
     * The object `handleContinue` merges (lines 96-113): the communication
     * address is the current one when they are the same, and the four nominee
     * fields are blank without a nominee.
     */
    function Payload(): (r: Bag)
      reads this`email, this`fatherName, this`motherName, this`maritalStatus, this`currentAddress, this`communicationAddress, this`sameAsCurrentAddress, this`incomeRange,
        this`wantsNominee, this`nomineeName, this`nomineeRelation, this`nomineeDob, this`nomineeAddress,
        this`isPep, this`isIndianNational, this`isTaxResidentIndiaOnly
      ensures "communicationAddress" in r
      ensures r["communicationAddress"] == Str(if sameAsCurrentAddress then currentAddress else communicationAddress)
      ensures forall k :: k in NomineePart() ==> k in r && r[k] == NomineePart()[k]
      ensures "wantsNominee" in r && r["wantsNominee"] == Bool(wantsNominee)
    {
      var d := Details();
      var n := NomineePart();
      var f := Declarations();
      assert "communicationAddress" !in n && "communicationAddress" !in f;
      d + f + n
    }

    /**
     * `handleContinue` (lines 84-119) up to its timer, judged on the values
     * the click saw: errors are shown; an
     * invalid form writes nothing; a valid one starts loading, merges the
     * payload and passes the same nominee flag to `setNomineeEnabled`, which
     * therefore leaves the merged data as it is; a timer holding the
     * `nextStep` of this render starts.
     */
    method HandleContinue(p: Provider)
      modifies this`showErrors, this`isLoading, this`pendingAdvance, p`formData, p`store
      ensures showErrors
      ensures !old(IsFormValid()) ==>
        p.formData == old(p.formData) && p.store == old(p.store) && isLoading == old(isLoading)
        && pendingAdvance == old(pendingAdvance)
      ensures old(IsFormValid()) ==>
        isLoading && p.formData == Merge(old(p.formData), old(Payload())) && p.store == old(p.store).(formData := Held(p.formData))
        && pendingAdvance == Some(Capture(p.index, |p.steps|))
    {
      var valid, payload := IsFormValid(), Payload();
      showErrors := true;
      if valid {
        isLoading := true;
        pendingAdvance := Some(Capture(p.index, |p.steps|));
        Submit(p, payload, wantsNominee);
      }
    }

    /**
     * The two writes of `handleContinue` (lines 96-114): the merge, then
     * `setNomineeEnabled` with the flag the payload already holds.
     */
    static method Submit(p: Provider, payload: Bag, enabled: bool)
      requires "wantsNominee" in payload && payload["wantsNominee"] == Bool(enabled)
      modifies p`formData, p`store
      ensures p.formData == Merge(old(p.formData), payload)
      ensures p.store == old(p.store).(formData := Held(p.formData))
    {
      p.UpdateFormData(payload);
      ghost var merged := p.formData;
      p.SetNomineeEnabled(enabled);
      UpdateToSameValue(merged, "wantsNominee", Bool(enabled));
    }

    /**
     * The timer of `handleContinue` (lines 115-118): loading ends and the
     * captured `nextStep` runs, advancing from the index of the click.
     */
    method ContinueTimerFires(p: Provider)
      requires pendingAdvance.Some?
      modifies this`isLoading, p`index, p`branch, p`bottomBar, p`store, p`resumeInUrl
      ensures !isLoading && p.AdvancedFrom(pendingAdvance.value)
      ensures old(p.Valid()) && pendingAdvance.value.length == |p.steps| ==> p.Valid()
      ensures old(p.InRange()) && pendingAdvance.value == Capture(old(p.index), |p.steps|) ==> p.InRange()
    {
      isLoading := false;
      p.NextStepFrom(pendingAdvance.value);
    }

    /** The effect of lines 68-72: while the addresses are the same, the communication address follows the current one. */
    method SyncCommunicationAddress()
      modifies this`communicationAddress
      ensures communicationAddress == if sameAsCurrentAddress then currentAddress else old(communicationAddress)
    {
      if sameAsCurrentAddress {
        communicationAddress := currentAddress;
      }
    }

    /** The nominee checkbox (lines 387-396): unchecking it blanks the four nominee fields. */
    method OnNomineeToggle(enabled: bool)
      modifies this`wantsNominee, this`nomineeName, this`nomineeRelation, this`nomineeDob, this`nomineeAddress
      ensures wantsNominee == enabled
      ensures !enabled ==> nomineeName == nomineeRelation == nomineeDob == nomineeAddress == ""
      ensures enabled ==>
        nomineeName == old(nomineeName) && nomineeRelation == old(nomineeRelation)
        && nomineeDob == old(nomineeDob) && nomineeAddress == old(nomineeAddress)
    {
      wantsNominee := enabled;
      if !enabled {
        nomineeName := "";
        nomineeRelation := "";
        nomineeDob := "";
        nomineeAddress := "";
      }
    }

    /**
     * The relationship select (lines 435-439): the relation is set, and a
     * non-empty suggestion overwrites the nominee's name.
     */
    method OnRelationChange(p: Provider, rel: string)
      modifies this`nomineeRelation, this`nomineeName
      ensures nomineeRelation == rel
      ensures var suggested := Suggestion(rel, NameOf(p.formData));
        nomineeName == if suggested != "" then suggested else old(nomineeName)
    {
      nomineeRelation := rel;
      var suggested := Suggestion(rel, NameOf(p.formData));
      if suggested != "" {
        nomineeName := suggested;
      }
    }

    /**
     * The bottom-bar effect (lines 150-174): the continue button, disabled
     * while loading or while the form is invalid, with a "Nominee Added"
     * badge when a nominee is wanted.
     */
    function Caption(): (r: string)
      reads this
      ensures isLoading <==> r == ""
    {
      if isLoading then "" else if wantsNominee then "Continue Nominee Added" else "Continue"
    }

    method SyncBottomBar(p: Provider)
      modifies p`bottomBar
      ensures p.bottomBar == Some(Bar(Caption(), isLoading || !IsFormValid()))
    {
      p.SetBottomBar(Some(Bar(Caption(), isLoading || !IsFormValid())));
    }
  }
}
