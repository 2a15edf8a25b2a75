/**
 * The review screen of src/app/components/steps/StepReviewApplication.tsx:
 * a read-only summary of the form data in titled sections, and a submit
 * button that needs the terms to be accepted.
 */
module ReviewApplicationStep {
  import opened Wrappers
  import opened Text
  import opened FormData
  import opened Journey

  /** The placeholder for a missing value. */
  const Dash := "—"

  /** `formData[key] || "—"` for a text field: never blank. */
  function Shown(bag: Bag, key: string): (r: string)
    ensures r != ""
    ensures IsTruthy(bag, key) && bag[key].Str? ==> r == bag[key].s
    ensures !IsTruthy(bag, key) ==> r == Dash
  {
    StrOr(bag, key, Dash)
  }

  /** A text field shown with its first letter upper-cased (lines 84 and 106). */
  function ShownCapitalized(bag: Bag, key: string): (r: string)
    ensures r != ""
    ensures !IsTruthy(bag, key) ==> r == Dash
    ensures IsTruthy(bag, key) && bag[key].Str? ==>
      |r| == |bag[key].s| && r[0] == UpperChar(bag[key].s[0]) && r[1..] == bag[key].s[1..]
  {
    var s := StrOr(bag, key, "");
    if s == "" then Dash else Capitalize(s)
  }

  /** The label table of `formatIncomeRange` (lines 67-73). */
  const IncomeLabels: map<string, string> := map[
    "0-5L" := "Up to ₹5L",
    "5-10L" := "₹5L – ₹10L",
    "10-15L" := "₹10L – ₹15L",
    "15-25L" := "₹15L – ₹25L",
    "25L+" := "₹25L+"
  ]

  /**
   * `formatIncomeRange` (lines 65-75): "—" for no value, a known band's
   * label (never the code itself), and any other value as it is.
   */
  function FormatIncomeRange(v: string): (r: string)
    ensures r != ""
    ensures v == "" ==> r == Dash
    ensures v in IncomeLabels ==> r == IncomeLabels[v] && r != v
    ensures v != "" && v !in IncomeLabels ==> r == v
  {
    if v == "" then Dash
    else if v in IncomeLabels && IncomeLabels[v] != "" then IncomeLabels[v]
    else v
  }

  /** The communication address shown (line 93): the current one when they are the same. */
  function CommunicationShown(bag: Bag): (r: string)
    ensures r != ""
    ensures r == if IsTruthy(bag, "sameAsCurrentAddress") then Shown(bag, "currentAddress") else Shown(bag, "communicationAddress")
  {
    if IsTruthy(bag, "sameAsCurrentAddress") then Shown(bag, "currentAddress") else Shown(bag, "communicationAddress")
  }

  /** The KYC method shown (line 99): physical only for exactly "physicalKyc", digital for anything else. */
  function KycLabel(bag: Bag): (r: string)
    ensures r == "Physical KYC" <==> "kycMethod" in bag && bag["kycMethod"] == Str("physicalKyc")
    ensures r in {"Physical KYC", "Digital KYC"}
  {
    if "kycMethod" in bag && bag["kycMethod"] == Str("physicalKyc") then "Physical KYC" else "Digital KYC"
  }

  datatype Item = Item(caption: string, value: string)
  datatype Section = Section(title: string, items: seq<Item>)

  /** No value of the items is blank. */
  predicate Filled(items: seq<Item>) {
    forall j :: 0 <= j < |items| ==> items[j].value != ""
  }

  /** Every value of every section is shown as something. */
  predicate NoBlankValue(sections: seq<Section>) {
    forall i :: 0 <= i < |sections| ==> Filled(sections[i].items)
  }

  /** The personal section's items (lines 78-87). */
  function PersonalItems(bag: Bag): (r: seq<Item>)
    ensures |r| == 8 && Filled(r)
    ensures r[1].value == if IsTruthy(bag, "mobileNumber") && bag["mobileNumber"].Str? then "+91 " + bag["mobileNumber"].s else Dash
  {
    var mobile := StrOr(bag, "mobileNumber", "");
    [ Item("Full Name", Shown(bag, "name")),
      Item("Mobile Number", if mobile != "" then "+91 " + mobile else Dash),
      Item("Email", Shown(bag, "email")),
      Item("Date of Birth", Shown(bag, "dob")),
      Item("PAN", Shown(bag, "pan")),
      Item("Marital Status", ShownCapitalized(bag, "maritalStatus")),
      Item("Father's Name", Shown(bag, "fatherName")),
      Item("Mother's Name", Shown(bag, "motherName"))]
  }

  /** The address section's items (lines 89-95). */
  function AddressItems(bag: Bag): (r: seq<Item>)
    ensures |r| == 2 && Filled(r)
    ensures r[1] == Item("Communication Address", CommunicationShown(bag))
  {
    [ Item("Current Address", Shown(bag, "currentAddress")),
      Item("Communication Address", CommunicationShown(bag))]
  }

  /** The profile section's items (lines 97-100). */
  function ProfileItems(bag: Bag): (r: seq<Item>)
    ensures |r| == 2 && Filled(r)
    ensures r[1] == Item("KYC Method", KycLabel(bag))
  {
    [ Item("Annual Income Range", FormatIncomeRange(StrOr(bag, "incomeRange", ""))),
      Item("KYC Method", KycLabel(bag))]
  }

  /** The nominee section's items (lines 103-110). */
  function NomineeItems(bag: Bag): (r: seq<Item>)
    ensures |r| == 4 && Filled(r)
    ensures r[0] == Item("Nominee Name", Shown(bag, "nomineeName"))
  {
    [ Item("Nominee Name", Shown(bag, "nomineeName")),
      Item("Relationship", ShownCapitalized(bag, "nomineeRelation")),
      Item("Nominee DOB", Shown(bag, "nomineeDob")),
      Item("Nominee Address", Shown(bag, "nomineeAddress"))]
  }

  /**
   * `sections` (lines 77-118): personal, address and profile sections, and a
   * nominee section exactly when a nominee is wanted. No value is blank, the
   * communication address follows the "same as current" flag, and the
   * nominee section lists the four nominee fields.
   */
  function Sections(bag: Bag): (r: seq<Section>)
    ensures |r| == if IsTruthy(bag, "wantsNominee") then 4 else 3
    ensures r[0] == Section("Personal & Identity", PersonalItems(bag))
    ensures r[1] == Section("Addresses", AddressItems(bag))
    ensures r[2] == Section("Profile", ProfileItems(bag))
    ensures |r| == 4 ==> r[3] == Section("Nominee", NomineeItems(bag))
    ensures NoBlankValue(r)
  {
    var base := [Section("Personal & Identity", PersonalItems(bag)), Section("Addresses", AddressItems(bag)),
                 Section("Profile", ProfileItems(bag))];
    if IsTruthy(bag, "wantsNominee") then base + [Section("Nominee", NomineeItems(bag))] else base
  }

  class Screen {
    var isSubmitting: bool
    var termsAccepted: bool
    /** The render `handleSubmit`'s timer was started from (lines 22-32). */
    var pendingAdvance: Option<Capture>

    /** Lines 15-16. */
    constructor ()
      ensures !isSubmitting && !termsAccepted
      ensures pendingAdvance.None?
    {
      isSubmitting := false;
      termsAccepted := false;
      pendingAdvance := None;
    }

    /**
     * `handleSubmit` (lines 22-32) up to its timer: only once the terms are
     * accepted does submitting start, with a timer holding the `nextStep` of
     * this render.
     */
    method HandleSubmit(p: Provider)
      modifies this`isSubmitting, this`pendingAdvance
      ensures isSubmitting == (old(isSubmitting) || termsAccepted)
      ensures pendingAdvance == if termsAccepted then Some(Capture(p.index, |p.steps|)) else old(pendingAdvance)
    {
      if !termsAccepted {
        return;
      }
      isSubmitting := true;
      pendingAdvance := Some(Capture(p.index, |p.steps|));
    }

    /**
     * The timer of `handleSubmit` (lines 28-31): submitting ends and the
     * captured `nextStep` runs, advancing from the index of the click.
     */
    method SubmitTimerFires(p: Provider)
      requires pendingAdvance.Some?
      modifies this`isSubmitting, p`index, p`branch, p`bottomBar, p`store, p`resumeInUrl
      ensures !isSubmitting && p.AdvancedFrom(pendingAdvance.value)
      ensures old(p.Valid()) && pendingAdvance.value.length == |p.steps| ==> p.Valid()
      ensures old(p.InRange()) && pendingAdvance.value == Capture(old(p.index), |p.steps|) ==> p.InRange()
    {
      isSubmitting := false;
      p.NextStepFrom(pendingAdvance.value);
    }

    /** The button's caption (lines 43-53). */
    function Caption(): string
      reads this
    {
      if isSubmitting then "Submitting Application..." else "Submit Application"
    }

    /** The bottom-bar effect (lines 34-57): disabled while submitting or until the terms are accepted. */
    method SyncBottomBar(p: Provider)
      modifies p`bottomBar
      ensures p.bottomBar == Some(Bar(Caption(), isSubmitting || !termsAccepted))
    {
      p.SetBottomBar(Some(Bar(Caption(), isSubmitting || !termsAccepted)));
    }

    /** The terms checkbox (line 154). */
    method OnTermsChange(checked: bool)
      modifies this`termsAccepted
      ensures termsAccepted == checked
    {
      termsAccepted := checked;
    }
  }
}
