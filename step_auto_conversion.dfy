/**
 * The salary-conversion screen of src/app/components/steps/StepAutoConversion.tsx:
 * the user picks one of their savings accounts and either converts it (a
 * short simulated conversion) or declines; either answer lets them continue.
 */
module AutoConversionStep {
  import opened Wrappers
  import opened FormData
  import opened Journey

  /** The three masked accounts shown when the form data brings none (lines 30-34). */
  function FallbackAccounts(): (r: seq<Value>)
    ensures |r| == 3
    ensures forall i :: 0 <= i < |r| ==> r[i].Obj? && "id" in r[i].fields
    ensures forall i, j :: 0 <= i < j < |r| ==> r[i].fields["id"] != r[j].fields["id"]
  {
    [ Obj(map["id" := Str("acc-1"), "type" := Str("Savings"), "numberMasked" := Str("XX01 2345"), "branch" := Str("Mumbai Main")]),
      Obj(map["id" := Str("acc-2"), "type" := Str("Savings"), "numberMasked" := Str("XX09 6781"), "branch" := Str("Mumbai Main")]),
      Obj(map["id" := Str("acc-3"), "type" := Str("Savings"), "numberMasked" := Str("XX77 4402"), "branch" := Str("Bengaluru HSR")]) ]
  }

  /**
   * The accounts listed (lines 25-35): those of the form data when it holds
   * a non-empty array, the fallback accounts otherwise. The list is never empty.
   */
  function Accounts(bag: Bag): (r: seq<Value>)
    ensures |r| > 0
    ensures "accounts" in bag && bag["accounts"].List? && bag["accounts"].items != [] ==> r == bag["accounts"].items
    ensures !("accounts" in bag && bag["accounts"].List? && bag["accounts"].items != []) ==> r == FallbackAccounts()
  {
    if "accounts" in bag && bag["accounts"].List? && bag["accounts"].items != [] then bag["accounts"].items
    else FallbackAccounts()
  }

  const Yes := Str("yes")
  const No := Str("no")
  const Idle := Str("idle")
  const Converting := Str("converting")
  const Success := Str("success")

  class Screen {
    var choice: Option<Value>
    var status: Value
    var selectedAccountId: Option<Value>
    /** The account `runConversion`'s timer writes: the one selected at the click, `null` when none (lines 40-47). */
    var convertingAccount: Option<Value>

    /** Lines 11-17: the answer, the status and the account are taken from the form data when defined. */
    constructor (bag: Bag)
      ensures choice == Defined(bag, "autoConvertConsent")
      ensures status == (if Defined(bag, "autoConvertStatus").Some? then bag["autoConvertStatus"] else Idle)
      ensures selectedAccountId == Defined(bag, "salaryConversionAccountId")
      ensures convertingAccount.None?
    {
      choice := Defined(bag, "autoConvertConsent");
      status := Defined(bag, "autoConvertStatus").GetOr(Idle);
      selectedAccountId := Defined(bag, "salaryConversionAccountId");
      convertingAccount := None;
    }

    /** `!!selectedAccountId`. */
    predicate HasAccount()
      reads this
    {
      selectedAccountId.Some? && Truthy(selectedAccountId.value)
    }

    /** `canConvert` (line 37): the answer is yes and an account is picked. */
    predicate CanConvert()
      reads this
    {
      choice == Some(Yes) && HasAccount()
    }

    /** `canContinue` (line 38): a finished conversion of a picked account, or a no. */
    predicate CanContinue()
      reads this
    {
      (status == Success && HasAccount()) || choice == Some(No)
    }

    /**
     * `runConversion` (lines 40-47) up to its timer: the status becomes
     * converting, in the screen and in the form data, with the account; the
     * timer keeps that account.
     */
    method RunConversion(p: Provider)
      modifies this`status, this`convertingAccount, p`formData, p`store
      ensures status == Converting && convertingAccount == Some(OrNull(selectedAccountId))
      ensures p.formData == Merge(old(p.formData), map["autoConvertStatus" := Converting, "salaryConversionAccountId" := OrNull(selectedAccountId)])
      ensures p.store == old(p.store).(formData := Held(p.formData))
    {
      status := Converting;
      convertingAccount := Some(OrNull(selectedAccountId));
      p.UpdateFormData(map["autoConvertStatus" := Converting, "salaryConversionAccountId" := OrNull(selectedAccountId)]);
    }

    /**
     * The timer of `runConversion` (lines 43-46): the status becomes success,
     * in the screen and in the form data, which receives the account of the
     * click even when another one has been selected since. With an account
     * selected now the user may continue.
     */
    method ConversionDone(p: Provider)
      requires convertingAccount.Some?
      modifies this`status, p`formData, p`store
      ensures status == Success && (HasAccount() ==> CanContinue())
      ensures p.formData == Merge(old(p.formData), map["autoConvertStatus" := Success, "salaryConversionAccountId" := convertingAccount.value])
      ensures p.formData["salaryConversionAccountId"] == convertingAccount.value
      ensures p.store == old(p.store).(formData := Held(p.formData))
    {
      status := Success;
      p.UpdateFormData(map["autoConvertStatus" := Success, "salaryConversionAccountId" := convertingAccount.value]);
    }

    /** `handleContinue` (lines 49-52): the journey moves on only when the user may continue. */
    method HandleContinue(p: Provider)
      requires p.Ready()
      modifies p`index, p`branch, p`bottomBar, p`store, p`resumeInUrl
      ensures p.Ready() && (old(p.Valid()) ==> p.Valid())
      ensures !CanContinue() ==>
        && p.index == old(p.index) && p.branch == old(p.branch) && p.store == old(p.store)
        && p.bottomBar == old(p.bottomBar) && p.resumeInUrl == old(p.resumeInUrl)
      ensures CanContinue() ==> p.AdvancedFrom(Capture(old(p.index), |p.steps|)) && (old(p.InRange()) ==> p.InRange())
    {
      if !CanContinue() {
        return;
      }
      p.NextStep();
    }

    /** The bottom-bar effect (lines 54-67): "Continue", disabled until the user may continue. */
    method SyncBottomBar(p: Provider)
      modifies p`bottomBar
      ensures p.bottomBar == Some(Bar("Continue", !CanContinue()))
    {
      p.SetBottomBar(Some(Bar("Continue", !CanContinue())));
    }

    /** An account card (lines 92-95): the account is picked and stored. */
    method SelectAccount(p: Provider, id: Value)
      modifies this`selectedAccountId, p`formData, p`store
      ensures selectedAccountId == Some(id)
      ensures p.formData == old(p.formData)["salaryConversionAccountId" := id]
      ensures p.store == old(p.store).(formData := Held(p.formData))
    {
      selectedAccountId := Some(id);
      p.UpdateFormData(map["salaryConversionAccountId" := id]);
    }

    /**
     * "Yes, convert now" (lines 135-139): the answer is stored, and the
     * conversion runs when an account is picked and it has not already
     * succeeded. Either way the user can convert afterwards exactly when an
     * account is picked.
     */
    method ChooseYes(p: Provider)
      modifies this`choice, this`status, this`convertingAccount, p`formData, p`store
      ensures choice == Some(Yes) && (CanConvert() <==> HasAccount())
      ensures old(status) != Success && HasAccount() ==>
        && status == Converting && convertingAccount == Some(OrNull(selectedAccountId))
        && p.formData == Merge(old(p.formData)["autoConvertConsent" := Yes],
                               map["autoConvertStatus" := Converting, "salaryConversionAccountId" := OrNull(selectedAccountId)])
      ensures !(old(status) != Success && HasAccount()) ==>
        status == old(status) && convertingAccount == old(convertingAccount)
        && p.formData == old(p.formData)["autoConvertConsent" := Yes]
      ensures p.store == old(p.store).(formData := Held(p.formData))
    {
      choice := Some(Yes);
      p.UpdateFormData(map["autoConvertConsent" := Yes]);
      if status != Success && HasAccount() {
        RunConversion(p);
      }
    }

    /** "Not now" (lines 154-157): the answer is stored, and the user may continue. */
    method ChooseNo(p: Provider)
      modifies this`choice, p`formData, p`store
      ensures choice == Some(No) && CanContinue() && !CanConvert()
      ensures p.formData == old(p.formData)["autoConvertConsent" := No]
      ensures p.store == old(p.store).(formData := Held(p.formData))
    {
      choice := Some(No);
      p.UpdateFormData(map["autoConvertConsent" := No]);
    }
  }
}
