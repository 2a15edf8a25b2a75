/**
 * The identity screen of src/app/components/steps/StepWelcome.tsx: mobile,
 * date of birth, PAN and consent are validated before an OTP is requested;
 * a six-character OTP moves the journey on.
 */
module WelcomeStep {
  import opened Wrappers
  import opened Text
  import opened FormData
  import opened Journey

  /** `/^[6-9]\d{9}$/` (line 45). */
  predicate MobileOk(s: string) {
    |s| == 10 && '6' <= s[0] <= '9' && AllDigits(s)
  }

  predicate IsUpperLetter(c: char) {
    'A' <= c <= 'Z'
  }

  /** `/^[A-Z]{5}[0-9]{4}[A-Z]{1}$/` (line 52). */
  predicate PanOk(s: string) {
    && |s| == 10
    && (forall i :: 0 <= i < 5 ==> IsUpperLetter(s[i]))
    && (forall i :: 5 <= i < 9 ==> IsDigit(s[i]))
    && IsUpperLetter(s[9])
  }

  /** `!mobileNumber || !mobileRegex.test(mobileNumber)` (line 46): an empty number fails the pattern anyway. */
  predicate MobileRejected(s: string)
    ensures MobileRejected(s) <==> !MobileOk(s)
  {
    s == "" || !MobileOk(s)
  }

  /** `!pan || !panRegex.test(pan)` (line 53): an empty PAN fails the pattern anyway. */
  predicate PanRejected(s: string)
    ensures PanRejected(s) <==> !PanOk(s)
  {
    s == "" || !PanOk(s)
  }

  /** The fields the error map can name. */
  datatype Field = Mobile | Dob | Pan | Consent

  /** The message `validateForm` (lines 45-58) stores for a failing field. */
  function Message(f: Field): string {
    match f
    case Mobile => "Please enter a valid 10-digit mobile number starting with 6-9"
    case Dob => "Please provide your date of birth"
    case Pan => "Please enter a valid PAN number (e.g. ABCDE1234F)"
    case Consent => "Please accept the terms to continue"
  }

  /** The inputs the bottom-bar effect compares (line 102), as a tuple rather than a joined string. */
  datatype BarKey = BarKey(otpSent: bool, isLoading: bool, otpLength: nat, mobile: string, dob: string, pan: string, consent: bool)

  /** The form-data entries the prefill effect depends on (line 40); a missing key reads as `undefined`. */
  datatype PrefillKey = PrefillKey(mobile: Option<Value>, dob: Option<Value>, pan: Option<Value>)

  function Entry(bag: Bag, key: string): Option<Value> {
    if key in bag then Some(bag[key]) else None
  }

  function PrefillKeyOf(bag: Bag): PrefillKey {
    PrefillKey(Entry(bag, "mobileNumber"), Entry(bag, "dob"), Entry(bag, "pan"))
  }

  /** An empty field takes a non-empty stored text; a field that holds text keeps it. */
  function Refilled(field: string, bag: Bag, key: string): (r: string)
    ensures field != "" ==> r == field
    ensures field == "" && IsTruthy(bag, key) && bag[key].Str? ==> r == bag[key].s
    ensures field == "" && !IsTruthy(bag, key) ==> r == ""
  {
    if field == "" then StrOr(bag, key, "") else field
  }

  /** The filter of the mobile input (line 171) removes any separators from a valid ten-digit number. */
  lemma NormalizeKeepsMobile(s: string, sep: string)
    requires MobileOk(s) && forall i :: 0 <= i < |sep| ==> !IsDigit(sep[i])
    ensures DigitsUpTo(s[..5] + sep + s[5..], 10) == s
  {
    var head, tail := s[..5], s[5..];
    assert AllDigits(head) && AllDigits(tail) by {
      forall i | 0 <= i < |head| ensures IsDigit(head[i]) { assert head[i] == s[i]; }
      forall i | 0 <= i < |tail| ensures IsDigit(tail[i]) { assert tail[i] == s[i + 5]; }
    }
    DigitsOnlyAppend(head + sep, tail);
    DigitsOnlyAppend(head, sep);
    NoDigits(sep);
    assert DigitsOnly(head + sep + tail) == head + tail;
    assert head + tail == s;
  }

  /** Text without digits filters to nothing. */
  lemma {:induction false} NoDigits(s: string)
    requires forall i :: 0 <= i < |s| ==> !IsDigit(s[i])
    ensures DigitsOnly(s) == []
  {
    if s != [] {
      NoDigits(s[1..]);
    }
  }

  class Screen {
    var mobileNumber: string
    var dob: string
    var pan: string
    var consent: bool
    var otp: string
    var otpSent: bool
    var isLoading: bool
    var validationErrors: map<Field, string>
    var lastBottomBarKey: Option<BarKey>
    var lastPrefillKey: Option<PrefillKey>
    /** The render `verifyOtp`'s timer was started from (lines 77-84). */
    var pendingAdvance: Option<Capture>

    /** Lines 17-25: the three fields start from the form data, everything else empty. */
    constructor (formData: Bag)
      ensures mobileNumber == StrOr(formData, "mobileNumber", "")
      ensures dob == StrOr(formData, "dob", "") && pan == StrOr(formData, "pan", "")
      ensures !consent && otp == "" && !otpSent && !isLoading
      ensures validationErrors == map[] && lastBottomBarKey.None?
      ensures lastPrefillKey.None? && pendingAdvance.None?
    {
      mobileNumber := StrOr(formData, "mobileNumber", "");
      dob := StrOr(formData, "dob", "");
      pan := StrOr(formData, "pan", "");
      consent := false;
      otp := "";
      otpSent := false;
      isLoading := false;
      validationErrors := map[];
      lastBottomBarKey := None;
      lastPrefillKey := None;
      pendingAdvance := None;
    }

    /**
     * The prefill effect (lines 35-40), run when the stored mobile number,
     * date of birth or PAN changes: each empty field takes the stored text,
     * a field that holds text keeps it, and a repeat with the same entries
     * does nothing.
     */
    method SyncFromFormData(p: Provider)
      modifies this`mobileNumber, this`dob, this`pan, this`lastPrefillKey
      ensures lastPrefillKey == Some(PrefillKeyOf(p.formData))
      ensures old(lastPrefillKey) == Some(PrefillKeyOf(p.formData)) ==>
        mobileNumber == old(mobileNumber) && dob == old(dob) && pan == old(pan)
      ensures old(lastPrefillKey) != Some(PrefillKeyOf(p.formData)) ==>
        && mobileNumber == Refilled(old(mobileNumber), p.formData, "mobileNumber")
        && dob == Refilled(old(dob), p.formData, "dob")
        && pan == Refilled(old(pan), p.formData, "pan")
    {
      var key := PrefillKeyOf(p.formData);
      if lastPrefillKey == Some(key) {
        return;
      }
      lastPrefillKey := Some(key);
      mobileNumber := Refilled(mobileNumber, p.formData, "mobileNumber");
      dob := Refilled(dob, p.formData, "dob");
      pan := Refilled(pan, p.formData, "pan");
    }

    /** All four checks of `validateForm` pass. */
    predicate FormValid()
      reads this
    {
      MobileOk(mobileNumber) && dob != "" && PanOk(pan) && consent
    }

    /** The error map names exactly the failing fields, each with its message. */
    predicate ErrorsReported()
      reads this
    {
      && (Mobile in validationErrors <==> !MobileOk(mobileNumber))
      && (Dob in validationErrors <==> dob == "")
      && (Pan in validationErrors <==> !PanOk(pan))
      && (Consent in validationErrors <==> !consent)
      && forall f :: f in validationErrors ==> validationErrors[f] == Message(f)
    }

    /**
     * `validateForm` (lines 42-62): the error map names exactly the failing
     * fields with their messages, and the form is valid exactly when it
     * names none.
     */
    method ValidateForm() returns (ok: bool)
      modifies this`validationErrors
      ensures Mobile in validationErrors <==> !MobileOk(mobileNumber)
      ensures Dob in validationErrors <==> dob == ""
      ensures Pan in validationErrors <==> !PanOk(pan)
      ensures Consent in validationErrors <==> !consent
      ensures forall f :: f in validationErrors ==> validationErrors[f] == Message(f)
      ensures ok <==> |validationErrors| == 0
      ensures ok <==> FormValid()
    {
      var mobileFailed := MobileRejected(mobileNumber);
      var panFailed := PanRejected(pan);
      var errors := CollectErrors(mobileFailed, dob == "", panFailed, !consent);
      validationErrors := errors;
      ok := |errors| == 0;
    }

    /** The four checks of `validateForm` in order, each adding its message when it fails. */
    static method CollectErrors(mobileFailed: bool, dobFailed: bool, panFailed: bool, consentFailed: bool)
      returns (errors: map<Field, string>)
      ensures Mobile in errors <==> mobileFailed
      ensures Dob in errors <==> dobFailed
      ensures Pan in errors <==> panFailed
      ensures Consent in errors <==> consentFailed
      ensures forall f :: f in errors ==> errors[f] == Message(f)
      ensures |errors| == 0 <==> !mobileFailed && !dobFailed && !panFailed && !consentFailed
    {
      errors := map[];
      errors := Flag(errors, Mobile, mobileFailed, Message(Mobile));
      errors := Flag(errors, Dob, dobFailed, Message(Dob));
      errors := Flag(errors, Pan, panFailed, Message(Pan));
      errors := Flag(errors, Consent, consentFailed, Message(Consent));
    }

    /** One check of `validateForm`: a failing field gets its message, and nothing else changes. */
    static method Flag(errors: map<Field, string>, field: Field, failed: bool, message: string)
      returns (r: map<Field, string>)
      ensures r == if failed then errors[field := message] else errors
    {
      r := errors;
      if failed {
        r := r[field := message];
      }
    }

    /**
     * `requestOtp` (lines 64-75) up to its timer: nothing is written unless
     * the form is valid; then loading starts and mobile, date of birth and
     * PAN are merged into the form data.
     */
    method RequestOtp(p: Provider)
      modifies this`validationErrors, this`isLoading, p`formData, p`store
      ensures ErrorsReported()
      ensures !FormValid() ==> p.formData == old(p.formData) && p.store == old(p.store) && isLoading == old(isLoading)
      ensures FormValid() ==>
        && isLoading && validationErrors == map[]
        && p.formData == Merge(old(p.formData), map["mobileNumber" := Str(mobileNumber), "dob" := Str(dob), "pan" := Str(pan)])
        && p.store == old(p.store).(formData := Held(p.formData))
    {
      var ok := ValidateForm();
      if !ok {
        return;
      }
      isLoading := true;
      p.UpdateFormData(map["mobileNumber" := Str(mobileNumber), "dob" := Str(dob), "pan" := Str(pan)]);
    }

    /** The timer of `requestOtp` (lines 70-74): loading ends and the OTP counts as sent. */
    method OtpDelivered()
      modifies this`isLoading, this`otpSent
      ensures !isLoading && otpSent
    {
      isLoading := false;
      otpSent := true;
    }

    /**
     * `verifyOtp` (lines 77-84) up to its timer: only a six-character OTP
     * starts loading, and its timer keeps the `nextStep` of this render.
     */
    method VerifyOtp(p: Provider)
      modifies this`isLoading, this`pendingAdvance
      ensures |otp| != 6 ==> isLoading == old(isLoading) && pendingAdvance == old(pendingAdvance)
      ensures |otp| == 6 ==> isLoading && pendingAdvance == Some(Capture(p.index, |p.steps|))
    {
      if |otp| != 6 {
        return;
      }
      isLoading := true;
      pendingAdvance := Some(Capture(p.index, |p.steps|));
    }

    /**
     * The timer of `verifyOtp` (lines 80-83): loading ends and the captured
     * `nextStep` runs, advancing from the index of the click.
     */
    method VerifyTimerFires(p: Provider)
      requires pendingAdvance.Some?
      modifies this`isLoading, p`index, p`branch, p`bottomBar, p`store, p`resumeInUrl
      ensures !isLoading && p.AdvancedFrom(pendingAdvance.value)
      ensures old(p.Valid()) && pendingAdvance.value.length == |p.steps| ==> p.Valid()
      ensures old(p.InRange()) && pendingAdvance.value == Capture(old(p.index), |p.steps|) ==> p.InRange()
    {
      isLoading := false;
      p.NextStepFrom(pendingAdvance.value);
    }

    /** The button in the bottom bar is disabled while loading, or while a sent OTP is not six long (line 100). */
    predicate ButtonDisabled()
      reads this
    {
      isLoading || (otpSent && |otp| != 6)
    }

    /** The button's caption (lines 99, 120-130). */
    function Caption(): string
      reads this
    {
      if isLoading then (if otpSent then "Verifying..." else "Sending OTP...")
      else if otpSent then "Verify & Continue" else "Request OTP"
    }

    function CurrentKey(): BarKey
      reads this
    {
      BarKey(otpSent, isLoading, |otp|, mobileNumber, dob, pan, consent)
    }

    /**
     * The bottom-bar effect (lines 98-134): the bar is set again only when the
     * key differs from the last one it was set for; a repeat is a no-op.
     */
    method SyncBottomBar(p: Provider)
      modifies this`lastBottomBarKey, p`bottomBar
      ensures lastBottomBarKey == Some(CurrentKey())
      ensures old(lastBottomBarKey) == Some(CurrentKey()) ==> p.bottomBar == old(p.bottomBar)
      ensures old(lastBottomBarKey) != Some(CurrentKey()) ==> p.bottomBar == Some(Bar(Caption(), ButtonDisabled()))
    {
      var key := CurrentKey();
      if lastBottomBarKey == Some(key) {
        return;
      }
      lastBottomBarKey := Some(key);
      p.SetBottomBar(Some(Bar(Caption(), ButtonDisabled())));
    }

    /** The mobile input (lines 168-175): at most ten typed characters, of which the digits are kept; its error is cleared. */
    method OnMobileChange(value: string)
      modifies this`mobileNumber, this`validationErrors
      ensures mobileNumber == DigitsUpTo(Take(value, 10), 10)
      ensures |value| <= 10 ==> mobileNumber == DigitsUpTo(value, 10)
      ensures validationErrors == old(validationErrors) - {Mobile}
    {
      mobileNumber := DigitsUpTo(Take(value, 10), 10);
      if Mobile in validationErrors {
        validationErrors := validationErrors - {Mobile};
      }
    }

    /** The date input (lines 200-205); its error is cleared. */
    method OnDobChange(value: string)
      modifies this`dob, this`validationErrors
      ensures dob == value && validationErrors == old(validationErrors) - {Dob}
    {
      dob := value;
      if Dob in validationErrors {
        validationErrors := validationErrors - {Dob};
      }
    }

    /** The PAN input (lines 227-234): at most ten characters, upper-cased; its error is cleared. */
    method OnPanChange(value: string)
      modifies this`pan, this`validationErrors
      ensures pan == ToUpper(Take(value, 10)) && |pan| <= 10
      ensures validationErrors == old(validationErrors) - {Pan}
    {
      pan := ToUpper(Take(value, 10));
      if Pan in validationErrors {
        validationErrors := validationErrors - {Pan};
      }
    }

    /** The consent checkbox (lines 258-263); its error is cleared. */
    method OnConsentChange(checked: bool)
      modifies this`consent, this`validationErrors
      ensures consent == checked && validationErrors == old(validationErrors) - {Consent}
    {
      consent := checked;
      if Consent in validationErrors {
        validationErrors := validationErrors - {Consent};
      }
    }

    /** The OTP input (lines 305-310): at most six characters, of which the digits are kept. */
    method OnOtpChange(value: string)
      modifies this`otp
      ensures otp == DigitsOnly(Take(value, 6)) && |otp| <= 6
      ensures |value| <= 6 ==> otp == DigitsOnly(value)
    {
      otp := DigitsOnly(Take(value, 6));
    }

    /** "Change number" (line 290): back to the form. */
    method ChangeNumber()
      modifies this`otpSent
      ensures !otpSent
    {
      otpSent := false;
    }
  }
}
