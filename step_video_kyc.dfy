/**
 * The video-KYC screen of src/app/components/steps/StepVideoKyc.tsx: two
 * mandatory declarations gate a simulated call that connects, completes
 * and then moves the journey on.
 */
module VideoKycStep {
  import opened Wrappers
  import opened FormData
  import opened Journey

  /** The stages the three flags of the screen encode. */
  datatype Phase = Idle | Connecting | Connected | Completed

  class Screen {
    var isConnecting: bool
    var isConnected: bool
    var isCompleted: bool
    var consent: bool
    var presentInIndia: bool
    var showErrors: bool
    /** The render `handleStartCall`'s timers were started from (lines 29-48). */
    var pendingAdvance: Option<Capture>

    /** The combinations of the three flags the timers can produce. */
    predicate Valid()
      reads this
    {
      && (isConnecting ==> !isConnected && !isCompleted)
      && (isCompleted ==> isConnected)
    }

    /** The stage the flags stand for. */
    function Stage(): (r: Phase)
      requires Valid()
      reads this
      ensures r == Idle <==> !isConnecting && !isConnected
      ensures r == Connecting <==> isConnecting
      ensures r == Connected <==> isConnected && !isCompleted
      ensures r == Completed <==> isCompleted
    {
      if isCompleted then Completed
      else if isConnected then Connected
      else if isConnecting then Connecting
      else Idle
    }

    /** Lines 16-21: both declarations start from the form data. */
    constructor (bag: Bag)
      ensures Valid() && Stage() == Idle && !showErrors
      ensures consent == IsTruthy(bag, "vkycConsent") && presentInIndia == IsTruthy(bag, "vkycPresentInIndia")
      ensures pendingAdvance.None?
    {
      isConnecting := false;
      isConnected := false;
      isCompleted := false;
      consent := IsTruthy(bag, "vkycConsent");
      presentInIndia := IsTruthy(bag, "vkycPresentInIndia");
      showErrors := false;
      pendingAdvance := None;
    }

    /** `isConsentValid` (line 27). */
    predicate ConsentValid()
      reads this
    {
      consent && presentInIndia
    }

    /**
     * `handleStartCall` (lines 29-48) up to its first timer: errors are
     * shown, and the call starts connecting only when both declarations are
     * given, with nested timers holding the `nextStep` of this render. From
     * the idle stage this is the only way out.
     */
    method StartCall(p: Provider)
      modifies this`showErrors, this`isConnecting, this`pendingAdvance
      ensures showErrors
      ensures isConnecting == (old(isConnecting) || ConsentValid())
      ensures pendingAdvance == if ConsentValid() then Some(Capture(p.index, |p.steps|)) else old(pendingAdvance)
      ensures old(Valid()) && old(!isConnected) ==> Valid()
      ensures old(Valid()) && old(Stage()) == Idle ==> Stage() == if ConsentValid() then Connecting else Idle
    {
      showErrors := true;
      if !ConsentValid() {
        return;
      }
      isConnecting := true;
      pendingAdvance := Some(Capture(p.index, |p.steps|));
    }

    /** The first timer (lines 36-38): the call is connected. */
    method CallConnected()
      requires Valid() && Stage() == Connecting
      modifies this`isConnecting, this`isConnected
      ensures Valid() && Stage() == Connected
    {
      isConnecting := false;
      isConnected := true;
    }

    /** The second timer (lines 41-42): the call is completed. */
    method CallCompleted()
      requires Valid() && Stage() == Connected
      modifies this`isCompleted
      ensures Valid() && Stage() == Completed
    {
      isCompleted := true;
    }

    /** The third timer (lines 43-45): the `nextStep` captured at the start runs, advancing from the index of the click. */
    method FinishTimerFires(p: Provider)
      requires Valid() && Stage() == Completed && pendingAdvance.Some?
      modifies p`index, p`branch, p`bottomBar, p`store, p`resumeInUrl
      ensures p.AdvancedFrom(pendingAdvance.value)
      ensures old(p.Valid()) && pendingAdvance.value.length == |p.steps| ==> p.Valid()
      ensures old(p.InRange()) && pendingAdvance.value == Capture(old(p.index), |p.steps|) ==> p.InRange()
    {
      p.NextStepFrom(pendingAdvance.value);
    }

    /** The button's caption (lines 57, 68-78). */
    function Caption(): string
      reads this
    {
      if isConnecting then "Initiating Secure Call…"
      else if !isConnected then "Start Video Verification"
      else "Call in progress…"
    }

    /**
     * The bottom-bar effect (lines 50-82): no bar once the call is completed;
     * otherwise the start button, enabled only in the idle stage with both
     * declarations given.
     */
    method SyncBottomBar(p: Provider)
      requires Valid()
      modifies p`bottomBar
      ensures Stage() == Completed ==> p.bottomBar.None?
      ensures Stage() != Completed ==> p.bottomBar.Some? && p.bottomBar.value.caption == Caption()
      ensures Stage() != Completed ==> (!p.bottomBar.value.disabled <==> Stage() == Idle && ConsentValid())
    {
      if isCompleted {
        p.SetBottomBar(None);
        return;
      }
      p.SetBottomBar(Some(Bar(Caption(), isConnecting || isConnected || !ConsentValid())));
    }

    /** The VCIP consent checkbox (lines 114-118): stored at once. */
    method OnConsentChange(p: Provider, next: bool)
      modifies this`consent, p`formData, p`store
      ensures consent == next
      ensures p.formData == old(p.formData)["vkycConsent" := Bool(next)]
      ensures p.store == old(p.store).(formData := Held(p.formData))
    {
      consent := next;
      p.UpdateFormData(map["vkycConsent" := Bool(next)]);
    }

    /** The presence checkbox (lines 135-139): stored at once. */
    method OnPresentChange(p: Provider, next: bool)
      modifies this`presentInIndia, p`formData, p`store
      ensures presentInIndia == next
      ensures p.formData == old(p.formData)["vkycPresentInIndia" := Bool(next)]
      ensures p.store == old(p.store).(formData := Held(p.formData))
    {
      presentInIndia := next;
      p.UpdateFormData(map["vkycPresentInIndia" := Bool(next)]);
    }
  }
}
