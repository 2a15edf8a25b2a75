/**
 * The Aadhaar e-KYC screen of src/app/components/steps/StepEkycHandler.tsx:
 * a twelve-digit Aadhaar number and the UIDAI consent request an OTP, a
 * six-digit OTP completes the step, and a thirty-second countdown gates
 * the resend link.
 */
module EkycHandlerStep {
  import opened Wrappers
  import opened Text
  import opened FormData
  import opened Journey

  const ResendSeconds := 30
  const AadhaarError := "Please enter a valid 12-digit Aadhaar number."
  const ConsentError := "Please provide consent to proceed with Aadhaar e-KYC."
  const OtpError := "Please enter a valid 6-digit OTP."

  /** `s.slice(-4)` (line 190): the last four characters, or all of a shorter string. */
  function LastFour(s: string): (r: string)
    ensures |r| == Text.Min(4, |s|)
    ensures s == s[..|s| - |r|] + r
  {
    if |s| <= 4 then s else s[|s| - 4..]
  }

  /**
   * The dependencies of the bottom-bar effect (line 91). The Aadhaar number
   * and the OTP enter by their lengths only.
   */
  datatype BarKey = BarKey(otpSent: bool, isLoading: bool, otpLength: nat, aadhaarLength: nat, consent: bool)

  /**
   * What the bar button's `onClick` (line 83) closes over: the render that
   * last ran the effect, with its `nextStep` as a capture.
   */
  datatype BarRender = BarRender(otpSent: bool, isLoading: bool, number: string, consent: bool, otp: string, advance: Capture)

  function KeyOf(r: BarRender): BarKey {
    BarKey(r.otpSent, r.isLoading, |r.otp|, |r.number|, r.consent)
  }

  /** The `disabled` flag that render gave the button (lines 75-77). */
  predicate DisabledIn(r: BarRender) {
    r.isLoading || (if r.otpSent then |r.otp| != 6 else |r.number| != 12 || !r.consent)
  }

  /**
   * Overtyping a digit keeps the number's length, so the key is the same and
   * the effect does not run again: the button keeps the older render.
   */
  lemma SameLengthEditKeepsKey(r: BarRender, edited: string)
    requires |edited| == |r.number|
    ensures KeyOf(r.(number := edited)) == KeyOf(r)
    ensures r.number != edited ==> r.(number := edited) != r
  {
  }

  class Screen {
    var aadhaarNumber: string
    var otp: string
    var otpSent: bool
    var isLoading: bool
    var validationError: string
    var timer: int
    var uidaiConsent: bool
    var showErrors: bool
    /** What `sendOtp`'s timer writes: the number and consent of the click (lines 51-55). */
    var pendingDelivery: Option<Bag>
    /** The render `verifyOtp`'s timer was started from (lines 58-71). */
    var pendingAdvance: Option<Capture>
    /** The key the bottom-bar effect last ran for, and the render its button holds. */
    var lastBarKey: Option<BarKey>
    var barRender: Option<BarRender>

    /** The countdown stays between zero and its starting value. */
    predicate Valid()
      reads this
    {
      0 <= timer <= ResendSeconds
    }

    /** Lines 18-25: the Aadhaar number and the consent start from the form data. */
    constructor (bag: Bag)
      ensures Valid()
      ensures aadhaarNumber == StrOr(bag, "aadhaarNumber", "") && uidaiConsent == IsTruthy(bag, "ekycUidaiConsent")
      ensures otp == "" && !otpSent && !isLoading && validationError == "" && timer == ResendSeconds && !showErrors
      ensures pendingDelivery.None? && pendingAdvance.None?
      ensures lastBarKey.None? && barRender.None?
    {
      aadhaarNumber := StrOr(bag, "aadhaarNumber", "");
      otp := "";
      otpSent := false;
      isLoading := false;
      validationError := "";
      timer := ResendSeconds;
      uidaiConsent := IsTruthy(bag, "ekycUidaiConsent");
      showErrors := false;
      pendingDelivery := None;
      pendingAdvance := None;
      lastBarKey := None;
      barRender := None;
    }

    /**
     * The countdown (lines 31-36): once the OTP is sent it drops by one a
     * second and stops at zero.
     */
    method Tick()
      requires Valid()
      modifies this`timer
      ensures Valid()
      ensures timer == if otpSent && old(timer) > 0 then old(timer) - 1 else old(timer)
    {
      if otpSent && timer > 0 {
        timer := timer - 1;
      }
    }

    /** The resend link is usable once the countdown is over and nothing is loading (line 201). */
    predicate ResendEnabled()
      reads this
    {
      !(timer > 0 || isLoading)
    }

    /** The resend link (lines 195-205): restarts the countdown, and only when enabled. */
    method Resend()
      requires Valid()
      modifies this`timer
      ensures Valid()
      ensures timer == if old(ResendEnabled()) then ResendSeconds else old(timer)
    {
      if ResendEnabled() {
        timer := ResendSeconds;
      }
    }

    /**
     * `sendOtp` (lines 38-56) up to its timer, as created in a render that
     * held `number` and `consent`: the length of the number is checked first,
     * then the consent; the first failure is reported and nothing starts;
     * otherwise the error is cleared, loading starts and the timer keeps the
     * number and the consent of that render.
     */
    method SendOtpOf(number: string, consent: bool)
      modifies this`showErrors, this`validationError, this`isLoading, this`pendingDelivery
      ensures showErrors
      ensures validationError ==
        if |number| != 12 then AadhaarError else if !consent then ConsentError else ""
      ensures isLoading == (old(isLoading) || (|number| == 12 && consent))
      ensures pendingDelivery ==
        if |number| == 12 && consent
        then Some(map["aadhaarNumber" := Str(number), "ekycUidaiConsent" := Bool(consent)])
        else old(pendingDelivery)
    {
      showErrors := true;
      if |number| != 12 {
        validationError := AadhaarError;
        return;
      }
      if !consent {
        validationError := ConsentError;
        return;
      }
      validationError := "";
      isLoading := true;
      pendingDelivery := Some(map["aadhaarNumber" := Str(number), "ekycUidaiConsent" := Bool(consent)]);
    }

    /** The number form's submit (lines 110-113): `sendOtp` of the current render. */
    method SendOtp()
      modifies this`showErrors, this`validationError, this`isLoading, this`pendingDelivery
      ensures showErrors
      ensures validationError ==
        if |aadhaarNumber| != 12 then AadhaarError else if !uidaiConsent then ConsentError else ""
      ensures isLoading == (old(isLoading) || (|aadhaarNumber| == 12 && uidaiConsent))
      ensures pendingDelivery ==
        if |aadhaarNumber| == 12 && uidaiConsent
        then Some(map["aadhaarNumber" := Str(aadhaarNumber), "ekycUidaiConsent" := Bool(uidaiConsent)])
        else old(pendingDelivery)
    {
      SendOtpOf(aadhaarNumber, uidaiConsent);
    }

    /**
     * The timer of `sendOtp` (lines 51-55): loading ends, the OTP counts as
     * sent, and the number and the consent of the click are merged into the
     * form data, whatever the inputs hold now.
     */
    method OtpDelivered(p: Provider)
      requires pendingDelivery.Some?
      modifies this`isLoading, this`otpSent, p`formData, p`store
      ensures !isLoading && otpSent
      ensures p.formData == Merge(old(p.formData), pendingDelivery.value)
      ensures p.store == old(p.store).(formData := Held(p.formData))
    {
      isLoading := false;
      otpSent := true;
      p.UpdateFormData(pendingDelivery.value);
    }

    /**
     * `verifyOtp` (lines 58-71) up to its timer, as created in a render that
     * held `code` and the `nextStep` captured by `advance`: a short OTP is
     * reported; a six-digit one starts loading, and its timer keeps that
     * `nextStep`.
     */
    method VerifyOtpOf(code: string, advance: Capture)
      modifies this`validationError, this`isLoading, this`pendingAdvance
      ensures |code| != 6 ==>
        validationError == OtpError && isLoading == old(isLoading) && pendingAdvance == old(pendingAdvance)
      ensures |code| == 6 ==>
        validationError == old(validationError) && isLoading && pendingAdvance == Some(advance)
    {
      if |code| != 6 {
        validationError := OtpError;
        return;
      }
      isLoading := true;
      pendingAdvance := Some(advance);
    }

    /** The OTP form's submit (lines 162-165): `verifyOtp` of the current render. */
    method VerifyOtp(p: Provider)
      modifies this`validationError, this`isLoading, this`pendingAdvance
      ensures |otp| != 6 ==>
        validationError == OtpError && isLoading == old(isLoading) && pendingAdvance == old(pendingAdvance)
      ensures |otp| == 6 ==>
        validationError == old(validationError) && isLoading && pendingAdvance == Some(Capture(p.index, |p.steps|))
    {
      VerifyOtpOf(otp, Capture(p.index, |p.steps|));
    }

    /**
     * The timer of `verifyOtp` (lines 67-70): loading ends and the captured
     * `nextStep` runs, advancing from the index of the click.
     */
    method VerifyTimerFires(p: Provider)
      requires pendingAdvance.Some?
      modifies this`isLoading, p`index, p`branch, p`bottomBar, p`store, p`resumeInUrl
      ensures !isLoading && p.AdvancedFrom(pendingAdvance.value)
      ensures old(p.Valid()) && pendingAdvance.value.length == |p.steps| ==> p.Valid()
      ensures old(p.InRange()) && pendingAdvance.value == Capture(old(p.index), |p.steps|) ==> p.InRange()
    {
      isLoading := false;
      p.NextStepFrom(pendingAdvance.value);
    }

    /** The primary button is disabled while loading or while its action would be refused (lines 75-77). */
    predicate ButtonDisabled()
      reads this
    {
      isLoading || (if otpSent then |otp| != 6 else |aadhaarNumber| != 12 || !uidaiConsent)
    }

    /** The button's caption (lines 74, 87): a spinner while loading. */
    function Caption(): (r: string)
      reads this
      ensures isLoading <==> r == ""
    {
      if isLoading then "" else if otpSent then "Complete Verification" else "Verify Identity"
    }

    /** The render as the bar button's closure would hold it. */
    function Render(p: Provider): BarRender
      reads this, p
    {
      BarRender(otpSent, isLoading, aadhaarNumber, uidaiConsent, otp, Capture(p.index, |p.steps|))
    }

    /**
     * The bottom-bar effect (lines 73-91), run only when its key differs from
     * the one it last ran for: then the bar shows this render's caption and
     * `disabled` flag, and its button holds this render. A repeat of the key
     * changes nothing, even when the number itself has changed.
     */
    method SyncBottomBar(p: Provider)
      modifies this`lastBarKey, this`barRender, p`bottomBar
      ensures old(lastBarKey) != Some(KeyOf(Render(p))) ==>
        && p.bottomBar == Some(Bar(Caption(), ButtonDisabled()))
        && lastBarKey == Some(KeyOf(Render(p))) && barRender == Some(Render(p))
        && ButtonDisabled() == DisabledIn(Render(p))
      ensures old(lastBarKey) == Some(KeyOf(Render(p))) ==>
        p.bottomBar == old(p.bottomBar) && lastBarKey == old(lastBarKey) && barRender == old(barRender)
    {
      var key := KeyOf(Render(p));
      if lastBarKey == Some(key) {
        return;
      }
      p.SetBottomBar(Some(Bar(Caption(), ButtonDisabled())));
      lastBarKey := Some(key);
      barRender := Some(Render(p));
    }

    /**
     * A press of the bar's button (line 83): nothing when the render it holds
     * disabled it; otherwise `verifyOtp` or `sendOtp` of that render, so the
     * OTP timer keeps that render's `nextStep` and the send timer keeps that
     * render's number, which after a same-length edit is not the one shown.
     */
    method PressBar()
      requires barRender.Some?
      modifies this`showErrors, this`validationError, this`isLoading, this`pendingDelivery, this`pendingAdvance
      ensures var r := barRender.value;
        if DisabledIn(r) then
          showErrors == old(showErrors) && validationError == old(validationError) && isLoading == old(isLoading)
          && pendingDelivery == old(pendingDelivery) && pendingAdvance == old(pendingAdvance)
        else if r.otpSent then
          && isLoading && pendingAdvance == Some(r.advance) && pendingDelivery == old(pendingDelivery)
          && showErrors == old(showErrors) && validationError == old(validationError)
        else
          && isLoading && showErrors && validationError == "" && pendingAdvance == old(pendingAdvance)
          && pendingDelivery == Some(map["aadhaarNumber" := Str(r.number), "ekycUidaiConsent" := Bool(r.consent)])
    {
      var r := barRender.value;
      if DisabledIn(r) {
        return;
      }
      if r.otpSent {
        VerifyOtpOf(r.otp, r.advance);
      } else {
        SendOtpOf(r.number, r.consent);
      }
    }

    /** The Aadhaar input (lines 121-123): at most twelve typed characters, of which the digits are kept. */
    method OnAadhaarChange(value: string)
      modifies this`aadhaarNumber
      ensures aadhaarNumber == DigitsUpTo(Take(value, 12), 12)
      ensures |value| <= 12 ==> aadhaarNumber == DigitsUpTo(value, 12)
    {
      aadhaarNumber := DigitsUpTo(Take(value, 12), 12);
    }

    /** The OTP input (lines 182-184): at most six typed characters, of which the digits are kept. */
    method OnOtpChange(value: string)
      modifies this`otp
      ensures otp == DigitsUpTo(Take(value, 6), 6)
      ensures |value| <= 6 ==> otp == DigitsUpTo(value, 6)
    {
      otp := DigitsUpTo(Take(value, 6), 6);
    }

    /**
     * The consent checkbox (lines 138-143): the consent is stored at once,
     * and once errors are shown the error line is cleared.
     */
    method OnConsentChange(p: Provider, next: bool)
      modifies this`uidaiConsent, this`validationError, p`formData, p`store
      ensures uidaiConsent == next
      ensures validationError == if showErrors then "" else old(validationError)
      ensures p.formData == old(p.formData)["ekycUidaiConsent" := Bool(next)]
      ensures p.store == old(p.store).(formData := Held(p.formData))
    {
      uidaiConsent := next;
      p.UpdateFormData(map["ekycUidaiConsent" := Bool(next)]);
      if showErrors {
        validationError := "";
      }
    }

    /** "Edit Aadhaar" (line 173): back to the number. */
    method EditAadhaar()
      modifies this`otpSent
      ensures !otpSent
    {
      otpSent := false;
    }
  }

}
