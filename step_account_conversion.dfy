/**
 * The existing-account verification screen of
 * src/app/components/steps/StepAccountConversion.tsx: debit-card or
 * net-banking credentials, a simulated verification and a redirect. The
 * screen looks itself up under the id "account-conversion", which is not
 * the id its catalog entry carries.
 */
module AccountConversionStep {
  import opened Wrappers
  import opened Text
  import opened Catalog
  import opened Sequencer
  import opened Journey
  import opened ChatStep

  /** The id the screen searches for (line 28). */
  const SearchedId := "account-conversion"

  datatype Tab = DebitCard | NetBanking

  /**
   * The expiry input (lines 148-152): the digits, and once there are two of
   * them a slash after the month and at most two year digits.
   */
  function ExpiryText(raw: string): (r: string)
    ensures |r| <= 5
    ensures |DigitsOnly(raw)| < 2 ==> r == DigitsOnly(raw)
    ensures |DigitsOnly(raw)| >= 2 ==> |r| >= 3 && r[2] == '/' && r[..2] + r[3..] == Take(DigitsOnly(raw), 4)
  {
    var v := DigitsOnly(raw);
    if |v| >= 2 then v[..2] + "/" + v[2..Text.Min(4, |v|)] else v
  }

  /** Formatting what the input shows changes nothing: the display is stable. */
  lemma ExpiryIdempotent(raw: string)
    ensures ExpiryText(ExpiryText(raw)) == ExpiryText(raw)
  {
    var d := DigitsOnly(raw);
    var r := ExpiryText(raw);
    if |d| >= 2 {
      var m := Text.Min(4, |d|);
      assert r == d[..2] + "/" + d[2..m];
      DigitsOnlyAppend(d[..2] + "/", d[2..m]);
      DigitsOnlyAppend(d[..2], "/");
      assert DigitsOnly("/") == [] by {
        assert "/"[1..] == [];
      }
      assert d[..2] + d[2..m] == d[..m];
      assert DigitsOnly(r) == d[..m];
    }
  }

  /**
   * Deleting the slash of "12/" gives "12", which formats back to "12/": the
   * slash cannot be removed by deleting it.
   */
  lemma SlashComesBack()
    ensures ExpiryText("12") == "12/"
  {
    assert DigitsOnly("12") == "12" by {
      assert AllDigits("12");
    }
  }

  /**
   * The screen's id is not a catalog key, so in a sequence of catalog steps
   * it is never shown while the index is in range: neither its form nor its
   * summary.
   */
  lemma NeverShownInRange(steps: seq<Step>, current: int)
    requires forall i :: 0 <= i < |steps| ==> steps[i].id.Listed?
    requires current >= 0
    ensures ModeOf(steps, current, ParseId(SearchedId)) == Hidden
  {
    var id := ParseId(SearchedId);
    assert id.Unlisted?;
    UnlistedIdHidden(steps, current, id);
  }

  class Screen {
    var isLoading: bool
    var showPassword: bool
    var activeTab: Tab
    var isRedirecting: bool
    var last4Digits: string
    var expiryDate: string
    var pin: string
    var customerId: string
    var netBankingPassword: string
    /** The render `handleVerify`'s timers were started from (lines 36-45). */
    var pendingAdvance: Option<Capture>

    /** Lines 16-26. */
    constructor ()
      ensures !isLoading && !showPassword && activeTab == DebitCard && !isRedirecting
      ensures last4Digits == expiryDate == pin == customerId == netBankingPassword == ""
      ensures pendingAdvance.None?
    {
      isLoading := false;
      showPassword := false;
      activeTab := DebitCard;
      isRedirecting := false;
      last4Digits := "";
      expiryDate := "";
      pin := "";
      customerId := "";
      netBankingPassword := "";
      pendingAdvance := None;
    }

    /**
     * `handleVerify` (lines 36-45) up to its first timer: loading starts,
     * with no check of the credentials; the nested timers hold the
     * `nextStep` of this render.
     */
    method HandleVerify(p: Provider)
      modifies this`isLoading, this`pendingAdvance
      ensures isLoading && pendingAdvance == Some(Capture(p.index, |p.steps|))
    {
      isLoading := true;
      pendingAdvance := Some(Capture(p.index, |p.steps|));
    }

    /** The first timer (lines 38-40): loading ends and the redirect starts. */
    method Verified()
      modifies this`isLoading, this`isRedirecting
      ensures !isLoading && isRedirecting
    {
      isLoading := false;
      isRedirecting := true;
    }

    /** The second timer (lines 41-43): the `nextStep` captured by `handleVerify` runs, advancing from the index of the click. */
    method RedirectTimerFires(p: Provider)
      requires pendingAdvance.Some?
      modifies p`index, p`branch, p`bottomBar, p`store, p`resumeInUrl
      ensures p.AdvancedFrom(pendingAdvance.value)
      ensures old(p.Valid()) && pendingAdvance.value.length == |p.steps| ==> p.Valid()
      ensures old(p.InRange()) && pendingAdvance.value == Capture(old(p.index), |p.steps|) ==> p.InRange()
    {
      p.NextStepFrom(pendingAdvance.value);
    }

    /** The verify button is disabled while verifying or redirecting (line 220). */
    predicate VerifyDisabled()
      reads this
    {
      isLoading || isRedirecting
    }

    /**
     * A press of the verify button (lines 218-220): nothing while verifying or
     * redirecting, so a second press never starts a second chain of timers;
     * otherwise `handleVerify`.
     */
    method PressVerify(p: Provider)
      modifies this`isLoading, this`pendingAdvance
      ensures old(VerifyDisabled()) ==> isLoading == old(isLoading) && pendingAdvance == old(pendingAdvance)
      ensures !old(VerifyDisabled()) ==> isLoading && pendingAdvance == Some(Capture(p.index, |p.steps|))
      ensures VerifyDisabled()
    {
      if VerifyDisabled() {
        return;
      }
      HandleVerify(p);
    }

    /**
     * The last-four input (lines 133-137): the browser keeps at most four
     * typed characters, of which the digits are kept.
     */
    method OnLast4Change(value: string)
      modifies this`last4Digits
      ensures last4Digits == DigitsOnly(Take(value, 4)) && |last4Digits| <= 4
    {
      last4Digits := DigitsOnly(Take(value, 4));
    }

    /** The expiry input (lines 143-152): at most five typed characters, formatted. */
    method OnExpiryChange(value: string)
      modifies this`expiryDate
      ensures expiryDate == ExpiryText(Take(value, 5))
    {
      expiryDate := ExpiryText(Take(value, 5));
    }

    /** The PIN input (lines 159-165): at most four typed characters, digits kept. */
    method OnPinChange(value: string)
      modifies this`pin
      ensures pin == DigitsOnly(Take(value, 4)) && |pin| <= 4
    {
      pin := DigitsOnly(Take(value, 4));
    }

    /** The eye buttons (lines 169 and 200). */
    method TogglePassword()
      modifies this`showPassword
      ensures showPassword == !old(showPassword)
    {
      showPassword := !showPassword;
    }

    /** The tab buttons (lines 94 and 104): only the tab changes; the fields of the other tab are kept. */
    method SelectTab(t: Tab)
      modifies this`activeTab
      ensures activeTab == t
    {
      activeTab := t;
    }
  }
}
