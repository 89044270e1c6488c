/**
 * The installation verification page (app/verification/page.tsx): steps that
 * require an NFC scan advance only when the tag reported by the NFC proxy
 * route matches the step's position.
 */
module VerificationPage {
  import opened Wrappers
  import opened Js
  import opened Http
  import NfcRoute

  /** A row of `verification_steps`, reduced to the columns the page decides on. */
  datatype VerificationStep = VerificationStep(nfcRequired: JsVal, nfcPosition: JsVal)

  /** The two fields of the `/api/nfc` JSON the page reads. */
  datatype NfcAnswer = NfcAnswer(tagDetected: JsVal, position: JsVal)

  /** The fields of the proxy's answer as the page receives them. */
  function FromProxy(b: NfcRoute.ProxyBody): (a: NfcAnswer)
    ensures a.tagDetected == b.tagDetected && a.position == b.position
  {
    NfcAnswer(b.tagDetected, b.position)
  }

  const Waiting := "Wacht op NFC tag..."
  const CorrectTag := "Tag correct gescand"
  const WrongTag := "Verkeerde tag gescand"

  /** The verdict of one check and the status line it shows, if it changes it. */
  datatype NfcCheck = NfcCheck(valid: bool, status: Option<string>)

  /** `checkNfcStatus`: None stands for a fetch or JSON error. Only a detected
      tag at exactly the step's position passes, and only on a step that
      requires a scan. */
  function CheckNfcStatus(answer: Option<NfcAnswer>, step: VerificationStep): (r: NfcCheck)
    ensures r.valid <==> answer.Some? && Truthy(answer.value.tagDetected) && Truthy(step.nfcRequired)
                         && StrictEquals(answer.value.position, step.nfcPosition)
    ensures r.status.None? <==> answer.None? || !Truthy(answer.value.tagDetected)
    ensures r.valid ==> r.status == Some(CorrectTag)
    ensures r.status.Some? && !r.valid ==> r.status == Some(WrongTag)
  {
    if answer.None? || !Truthy(answer.value.tagDetected) then NfcCheck(false, None)
    else if Truthy(step.nfcRequired) && StrictEquals(answer.value.position, step.nfcPosition) then
      NfcCheck(true, Some(CorrectTag))
    else NfcCheck(false, Some(WrongTag))
  }

  /** The proxy never forwards a position, so through it an NFC step can pass
      only when the step has no `nfc_position` at all, and then any detected
      tag passes it. This holds for the route as written and as corrected. */
  lemma ProxiedScanPassesOnlyWithoutPosition(u: NfcRoute.Upstream, step: VerificationStep)
    ensures CheckNfcStatus(Some(FromProxy(NfcRoute.GetAsWritten(u).body)), step).valid ==> step.nfcPosition == Undefined
    ensures Truthy(step.nfcRequired) && step.nfcPosition == Undefined && Truthy(NfcRoute.GetAsWritten(u).body.tagDetected) ==>
              CheckNfcStatus(Some(FromProxy(NfcRoute.GetAsWritten(u).body)), step).valid
    ensures CheckNfcStatus(Some(FromProxy(NfcRoute.Get(u).body)), step).valid ==> step.nfcPosition == Undefined
    ensures Truthy(step.nfcRequired) && step.nfcPosition == Undefined && Truthy(NfcRoute.Get(u).body.tagDetected) ==>
              CheckNfcStatus(Some(FromProxy(NfcRoute.Get(u).body)), step).valid
  {
  }

  /**
   * The page's state: the loaded steps, the current one, the NFC status line
   * and whether the verification is complete.
   */
  class Verification {
    var steps: seq<VerificationStep>
    var currentStep: int
    var loading: bool
    var nfcStatus: string
    var verificationComplete: bool

    /** The current step is 0 or points into the loaded steps. */
    ghost predicate Valid()
      reads this
    {
      0 <= currentStep && (currentStep == 0 || currentStep < |steps|)
    }

    constructor ()
      ensures Valid() && steps == [] && currentStep == 0 && loading && nfcStatus == Waiting && !verificationComplete
    {
      steps := [];
      currentStep := 0;
      loading := true;
      nfcStatus := Waiting;
      verificationComplete := false;
    }

    /** `fetchVerificationSteps`, run once when the page mounts: `data || []`
        on success; on an error the steps stay as they were. */
    method Load(result: DbResult<Option<seq<VerificationStep>>>)
      requires Valid() && currentStep == 0
      modifies this`steps, this`loading
      ensures Valid() && !loading
      ensures result.DbOk? ==> steps == result.data.GetOr([])
      ensures result.DbError? ==> steps == old(steps)
    {
      if result.DbOk? {
        steps := result.data.GetOr([]);
      }
      loading := false;
    }

    /** `handleNextStep`, with the answer the NFC check receives: a step that
        requires a scan holds the page until the check passes; otherwise it
        advances (resetting the status line), or completes on the last step. */
    method HandleNextStep(answer: Option<NfcAnswer>)
      requires Valid() && steps != []
      modifies this`currentStep, this`nfcStatus, this`verificationComplete
      ensures Valid()
      ensures var check := CheckNfcStatus(answer, old(steps[currentStep]));
              Truthy(old(steps[currentStep]).nfcRequired) && !check.valid ==>
                currentStep == old(currentStep) && verificationComplete == old(verificationComplete)
                && nfcStatus == old(check.status.GetOr(nfcStatus))
      ensures var check := CheckNfcStatus(answer, old(steps[currentStep]));
              (!Truthy(old(steps[currentStep]).nfcRequired) || check.valid) ==>
                if old(currentStep) < |steps| - 1 then
                  currentStep == old(currentStep) + 1 && nfcStatus == Waiting && verificationComplete == old(verificationComplete)
                else
                  currentStep == old(currentStep) && verificationComplete
                  && nfcStatus == (if Truthy(old(steps[currentStep]).nfcRequired) then CorrectTag else old(nfcStatus))
    {
      var current := steps[currentStep];
      if Truthy(current.nfcRequired) {
        var check := CheckNfcStatus(answer, current);
        if check.status.Some? {
          nfcStatus := check.status.value;
        }
        if !check.valid {
          return;
        }
      }
      if currentStep < |steps| - 1 {
        currentStep := currentStep + 1;
        nfcStatus := Waiting;
      } else {
        verificationComplete := true;
      }
    }

    /** The "previous step" button. */
    method Previous()
      requires Valid()
      modifies this`currentStep
      ensures Valid()
      ensures currentStep == if old(currentStep) - 1 > 0 then old(currentStep) - 1 else 0
    {
      currentStep := if 0 > currentStep - 1 then 0 else currentStep - 1;
    }
  }
}
