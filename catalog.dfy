/**
 * The static step catalog of src/app/context/stepDefinitions.ts: the two
 * enumerations, the id -> Step record `ALL_STEPS` and the id -> screen record
 * `STEP_COMPONENTS`.
 */
module Catalog {
  import opened Wrappers

  /** The journey variants: new-to-bank, existing without KYC, existing express, loan offer. */
  datatype JourneyType = Ntb | EtbNk | Etb | Journey2

  /** `UserType` is `JourneyType` without the loan-offer journey. */
  type UserType = t: JourneyType | !t.Journey2? witness Ntb

  /** The string a journey type is written as (in local storage, in tokens). */
  function JourneyTypeName(t: JourneyType): string {
    match t
    case Ntb => "ntb"
    case EtbNk => "etb-nk"
    case Etb => "etb"
    case Journey2 => "journey2"
  }

  /** Reading a journey-type string back; anything else is no journey type. */
  function ParseJourneyType(s: string): (r: Option<JourneyType>)
    ensures r.Some? ==> JourneyTypeName(r.value) == s
    ensures r.None? ==> forall t :: JourneyTypeName(t) != s
  {
    if s == "ntb" then Some(Ntb)
    else if s == "etb-nk" then Some(EtbNk)
    else if s == "etb" then Some(Etb)
    else if s == "journey2" then Some(Journey2)
    else None
  }

  /** Every journey type reads back as itself. */
  lemma JourneyTypeRoundTrip(t: JourneyType)
    ensures ParseJourneyType(JourneyTypeName(t)) == Some(t)
  {
  }

  /** The sixteen keys shared by `ALL_STEPS` and `STEP_COMPONENTS`. */
  datatype Key =
    | JourneySelection | Welcome | KycChoice | EkycHandler | PhysicalKyc | ProfileDetails
    | AutoConversion | IncomeDetails | NomineeDetails | ReviewApplication | KycDetails
    | VideoKyc | AccountConversion | ProfessionalDetailsExpress | Complete | LoanOffer

  /** The string each key is spelled as. */
  function KeyName(k: Key): string {
    match k
    case JourneySelection => "journeySelection"
    case Welcome => "welcome"
    case KycChoice => "kycChoice"
    case EkycHandler => "ekycHandler"
    case PhysicalKyc => "physicalKyc"
    case ProfileDetails => "profileDetails"
    case AutoConversion => "autoConversion"
    case IncomeDetails => "incomeDetails"
    case NomineeDetails => "nomineeDetails"
    case ReviewApplication => "reviewApplication"
    case KycDetails => "kycDetails"
    case VideoKyc => "videoKyc"
    case AccountConversion => "accountConversion"
    case ProfessionalDetailsExpress => "professionalDetailsExpress"
    case Complete => "complete"
    case LoanOffer => "loanOffer"
  }

  /** No key is spelled as the empty string. */
  lemma KeyNameNonEmpty(k: Key)
    ensures KeyName(k) != ""
  {
  }

  /**
   * A step id string: one of the catalog keys, or a string that spells none of
   * them (a retired or mistyped id such as "kycPan" or "account-conversion").
   */
  datatype IdForm = Listed(key: Key) | Unlisted(name: string)

  /** An id that does not hide a catalog key behind `Unlisted`. */
  predicate Canonical(id: IdForm) {
    id.Unlisted? ==> forall k :: KeyName(k) != id.name
  }

  /** Every step id string has exactly one form: a key is always `Listed`. */
  type StepId = id: IdForm | Canonical(id) witness Listed(Welcome)

  /** The string an id stands for. */
  function IdName(id: StepId): string {
    match id
    case Listed(k) => KeyName(k)
    case Unlisted(s) => s
  }

  /** Reading an id string: a catalog key when it spells one. */
  function ParseId(s: string): (r: StepId)
    ensures IdName(r) == s
    ensures r.Unlisted? ==> forall k :: KeyName(k) != s
  {
    if s == "journeySelection" then Listed(JourneySelection)
    else if s == "welcome" then Listed(Welcome)
    else if s == "kycChoice" then Listed(KycChoice)
    else if s == "ekycHandler" then Listed(EkycHandler)
    else if s == "physicalKyc" then Listed(PhysicalKyc)
    else if s == "profileDetails" then Listed(ProfileDetails)
    else if s == "autoConversion" then Listed(AutoConversion)
    else if s == "incomeDetails" then Listed(IncomeDetails)
    else if s == "nomineeDetails" then Listed(NomineeDetails)
    else if s == "reviewApplication" then Listed(ReviewApplication)
    else if s == "kycDetails" then Listed(KycDetails)
    else if s == "videoKyc" then Listed(VideoKyc)
    else if s == "accountConversion" then Listed(AccountConversion)
    else if s == "professionalDetailsExpress" then Listed(ProfessionalDetailsExpress)
    else if s == "complete" then Listed(Complete)
    else if s == "loanOffer" then Listed(LoanOffer)
    else Unlisted(s)
  }

  /** Parsing gives back every id, so ids compare exactly as their strings do. */
  lemma {:induction false} ParseIdRoundTrip(id: StepId)
    ensures ParseId(IdName(id)) == id
  {
    match id
    case Unlisted(s) =>
    case Listed(k) =>
      match k
      case JourneySelection =>
      case Welcome =>
      case KycChoice =>
      case EkycHandler =>
      case PhysicalKyc =>
      case ProfileDetails =>
      case AutoConversion =>
      case IncomeDetails =>
      case NomineeDetails =>
      case ReviewApplication =>
      case KycDetails =>
      case VideoKyc =>
      case AccountConversion =>
      case ProfessionalDetailsExpress =>
      case Complete =>
      case LoanOffer =>
  }

  /** Two ids are equal exactly when their strings are. */
  lemma IdNamesInjective(a: StepId, b: StepId)
    ensures a == b <==> IdName(a) == IdName(b)
  {
    ParseIdRoundTrip(a);
    ParseIdRoundTrip(b);
  }

  datatype Step = Step(id: StepId, title: string)

  /** The screens, one per step component the catalog imports. */
  datatype Component =
    | StepJourneySelection | StepWelcome | StepKycChoice | StepCombinedDetails
    | StepAutoConversion | StepIncomeDetails | StepNomineeDetails | StepReviewApplication
    | StepKycDetails | StepVideoKyc | StepComplete | StepEkycHandler
    | StepPhysicalKyc | StepAccountConversion | StepProfessionalDetailsExpress | StepLoanOffer

  /** The entry `ALL_STEPS` holds for a key: the key's id and its title. */
  function Entry(k: Key, title: string): Step {
    Step(Listed(k), title)
  }

  /** `ALL_STEPS`. */
  function AllSteps(): map<StepId, Step> {
    map[
      Listed(JourneySelection) := Entry(JourneySelection, "Select Journey"),
      Listed(Welcome) := Entry(Welcome, "Verification"),
      Listed(KycChoice) := Entry(KycChoice, "Select KYC"),
      Listed(EkycHandler) := Entry(EkycHandler, "e-KYC Verification"),
      Listed(PhysicalKyc) := Entry(PhysicalKyc, "Physical KYC"),
      Listed(ProfileDetails) := Entry(ProfileDetails, "Your Profile"),
      Listed(AutoConversion) := Entry(AutoConversion, "Account Conversion"),
      Listed(IncomeDetails) := Entry(IncomeDetails, "Income & Account"),
      Listed(NomineeDetails) := Entry(NomineeDetails, "Nominee Details"),
      Listed(ReviewApplication) := Entry(ReviewApplication, "Final Verification"),
      Listed(KycDetails) := Entry(KycDetails, "VKYC Consent"),
      Listed(VideoKyc) := Entry(VideoKyc, "Video KYC"),
      Listed(AccountConversion) := Entry(AccountConversion, "Verify Details"),
      Listed(ProfessionalDetailsExpress) := Entry(ProfessionalDetailsExpress, "Your Profile"),
      Listed(Complete) := Entry(Complete, "Submitted"),
      Listed(LoanOffer) := Entry(LoanOffer, "Loan Offer")
    ]
  }

  /** The keys of `STEP_COMPONENTS` in declaration order (the order `Object.keys` yields). */
  function ComponentKeys(): seq<StepId> {
    [Listed(JourneySelection), Listed(Welcome), Listed(KycChoice), Listed(ProfileDetails),
     Listed(AutoConversion), Listed(IncomeDetails), Listed(NomineeDetails),
     Listed(ReviewApplication), Listed(KycDetails), Listed(VideoKyc), Listed(Complete),
     Listed(EkycHandler), Listed(PhysicalKyc), Listed(AccountConversion),
     Listed(ProfessionalDetailsExpress), Listed(LoanOffer)]
  }

  /** `STEP_COMPONENTS`. */
  function StepComponents(): map<StepId, Component> {
    map[
      Listed(JourneySelection) := StepJourneySelection,
      Listed(Welcome) := StepWelcome,
      Listed(KycChoice) := StepKycChoice,
      Listed(ProfileDetails) := StepCombinedDetails,
      Listed(AutoConversion) := StepAutoConversion,
      Listed(IncomeDetails) := StepIncomeDetails,
      Listed(NomineeDetails) := StepNomineeDetails,
      Listed(ReviewApplication) := StepReviewApplication,
      Listed(KycDetails) := StepKycDetails,
      Listed(VideoKyc) := StepVideoKyc,
      Listed(Complete) := StepComplete,
      Listed(EkycHandler) := StepEkycHandler,
      Listed(PhysicalKyc) := StepPhysicalKyc,
      Listed(AccountConversion) := StepAccountConversion,
      Listed(ProfessionalDetailsExpress) := StepProfessionalDetailsExpress,
      Listed(LoanOffer) := StepLoanOffer
    ]
  }

  /** `STEP_COMPONENTS[id]` over the record's own keys, absent for an id no key spells. */
  function ComponentFor(id: StepId): (r: Option<Component>)
    ensures r.Some? <==> id in StepComponents()
    ensures r.Some? ==> r.value == StepComponents()[id]
  {
    if id in StepComponents() then Some(StepComponents()[id]) else None
  }

  /** `keys.find(key => STEP_COMPONENTS[key] === c)`: the first key bound to `c`. */
  function FindKey(keys: seq<StepId>, c: Component): (r: Option<StepId>)
    ensures r.Some? ==> r.value in keys && r.value in StepComponents() && StepComponents()[r.value] == c
    ensures r.None? ==> forall k :: k in keys && k in StepComponents() ==> StepComponents()[k] != c
  {
    if keys == [] then None
    else if keys[0] in StepComponents() && StepComponents()[keys[0]] == c then Some(keys[0])
    else FindKey(keys[1..], c)
  }

  /** Both records are keyed by exactly the sixteen catalog keys. */
  lemma CatalogKeys(id: StepId)
    ensures id in AllSteps() <==> id.Listed?
    ensures id in StepComponents() <==> id.Listed?
    ensures id in ComponentKeys() <==> id.Listed?
  {
    if id.Listed? {
      match id.key
      case JourneySelection =>
      case Welcome =>
      case KycChoice =>
      case EkycHandler =>
      case PhysicalKyc =>
      case ProfileDetails =>
      case AutoConversion =>
      case IncomeDetails =>
      case NomineeDetails =>
      case ReviewApplication =>
      case KycDetails =>
      case VideoKyc =>
      case AccountConversion =>
      case ProfessionalDetailsExpress =>
      case Complete =>
      case LoanOffer =>
    }
  }

  /** `ComponentKeys` lists each key once. */
  lemma ComponentKeysDistinct()
    ensures |ComponentKeys()| == 16
    ensures forall i, j :: 0 <= i < j < |ComponentKeys()| ==> ComponentKeys()[i] != ComponentKeys()[j]
  {
  }

  /** Every entry's `id` field equals its key. */
  lemma StepIdsMatchKeys()
    ensures forall k :: k in AllSteps() ==> AllSteps()[k].id == k
  {
  }

  /** No two keys share a component, so a component identifies its key. */
  lemma ComponentsInjective()
    ensures forall k1, k2 :: k1 in StepComponents() && k2 in StepComponents() && k1 != k2 ==>
      StepComponents()[k1] != StepComponents()[k2]
  {
  }

  /**
   * The reverse lookup the controller uses to persist the branch screen
   * (JourneyContext.tsx line 217): looking up the component stored under
   * `id` gives back `id`.
   */
  lemma KeyOfComponent(id: StepId)
    requires id in StepComponents()
    ensures FindKey(ComponentKeys(), StepComponents()[id]) == Some(id)
  {
    CatalogKeys(id);
    ComponentsInjective();
  }

  /** Titles do not identify steps: two catalog entries share the title "Your Profile". */
  lemma TitlesNotUnique()
    ensures AllSteps()[Listed(ProfileDetails)].title == AllSteps()[Listed(ProfessionalDetailsExpress)].title
    ensures AllSteps()[Listed(ProfileDetails)] != AllSteps()[Listed(ProfessionalDetailsExpress)]
  {
  }
}
