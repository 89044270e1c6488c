/**
 * The installation stepper (components/installation/InstallationStepper.tsx):
 * loading an installation's machine and steps, choosing one step of each
 * kind, and moving forward and back through the three steps shown.
 */
module InstallationStepper {
  import opened Wrappers
  import opened Js
  import opened Http
  import opened Seqs

  /** A row of `installatie_stappen`, reduced to the columns the stepper reads. */
  datatype Stap = Stap(beschrijving: JsVal, afbeeldingUrl: JsVal, nfcVereist: JsVal)

  /** An explanation: a description, no picture and no NFC check. */
  predicate IsUitleg(s: Stap) {
    Truthy(s.beschrijving) && !Truthy(s.afbeeldingUrl) && !Truthy(s.nfcVereist)
  }

  predicate IsFoto(s: Stap) { Truthy(s.afbeeldingUrl) }

  predicate IsNfc(s: Stap) { Truthy(s.nfcVereist) }

  /** What a shown step displays. */
  datatype StepContent =
    | Explanation(description: JsVal)
    | Picture(imageUrl: JsVal, caption: JsVal)
    | NfcCheck
    | Placeholder(notice: string)

  datatype StepView = StepView(title: string, content: StepContent)

  const NoExplanation := "Geen uitleg gevonden."
  const NoPicture := "Geen foto-instructie gevonden."
  const NoNfcCheck := "Geen NFC-check stap gevonden."
  const NoCaption := "Geen uitleg beschikbaar."

  /** `dynamicSteps`: the first explanation, the first picture step and the
      first NFC step, in that order, with a placeholder for a missing kind. */
  function DynamicSteps(stappen: seq<Stap>): (steps: seq<StepView>)
    ensures |steps| == 3
    ensures steps[0].title == "Stap 1" && steps[1].title == "Stap 2" && steps[2].title == "Stap 3"
    ensures (exists i :: 0 <= i < |stappen| && IsUitleg(stappen[i])) <==> steps[0].content.Explanation?
    ensures (exists i :: 0 <= i < |stappen| && IsFoto(stappen[i])) <==> steps[1].content.Picture?
    ensures (exists i :: 0 <= i < |stappen| && IsNfc(stappen[i])) <==> steps[2].content == NfcCheck
    ensures steps[0].content.Explanation? ==>
              exists i :: 0 <= i < |stappen| && IsUitleg(stappen[i]) && steps[0].content.description == stappen[i].beschrijving
                          && forall j :: 0 <= j < i ==> !IsUitleg(stappen[j])
    ensures steps[1].content.Picture? ==>
              exists i :: 0 <= i < |stappen| && IsFoto(stappen[i]) && steps[1].content.imageUrl == stappen[i].afbeeldingUrl
                          && steps[1].content.caption == Or(stappen[i].beschrijving, Str(NoCaption))
                          && forall j :: 0 <= j < i ==> !IsFoto(stappen[j])
    ensures !steps[0].content.Explanation? ==> steps[0].content == Placeholder(NoExplanation)
    ensures !steps[1].content.Picture? ==> steps[1].content == Placeholder(NoPicture)
    ensures steps[2].content != NfcCheck ==> steps[2].content == Placeholder(NoNfcCheck)
  {
    var uitleg := Find(stappen, IsUitleg);
    var foto := Find(stappen, IsFoto);
    var nfc := Find(stappen, IsNfc);
    [StepView("Stap 1", if uitleg.Some? then Explanation(uitleg.value.beschrijving) else Placeholder(NoExplanation)),
     StepView("Stap 2", if foto.Some? then Picture(foto.value.afbeeldingUrl, Or(foto.value.beschrijving, Str(NoCaption)))
                        else Placeholder(NoPicture)),
     StepView("Stap 3", if nfc.Some? then NfcCheck else Placeholder(NoNfcCheck))]
  }

  /** The three kinds are chosen independently: a step with both a picture and
      an NFC check can be the picture step and the NFC step at once, but never
      the explanation. */
  lemma PictureWithNfc(s: Stap)
    requires Truthy(s.afbeeldingUrl) && Truthy(s.nfcVereist)
    ensures var steps := DynamicSteps([s]);
            steps[0].content == Placeholder(NoExplanation) && steps[1].content.Picture? && steps[2].content == NfcCheck
  {
  }

  /**
   * The stepper's state: the current step index, whether the completion
   * dialog is open, and what loading produced.
   */
  class Stepper {
    var step: int
    var showDialog: bool
    var loading: bool
    var error: Option<string>
    var steps: seq<StepView>

    /** The step index always points into the steps shown (or is 0 before any are). */
    ghost predicate Valid()
      reads this
    {
      0 <= step && (|steps| == 0 ==> step == 0) && (|steps| > 0 ==> step < |steps|) && (|steps| == 0 || |steps| == 3)
    }

    constructor ()
      ensures Valid() && step == 0 && !showDialog && loading && error.None? && steps == []
    {
      step := 0;
      showDialog := false;
      loading := true;
      error := None;
      steps := [];
    }

    /** `fetchMachineAndSteps`: each query that fails or finds nothing stops
        the load with its own message and leaves the steps as they were. */
    method Load(installatie: DbResult<Option<string>>, machine: DbResult<Option<JsVal>>,
                stappen: DbResult<Option<seq<Stap>>>)
      requires Valid()
      modifies this`loading, this`error, this`steps
      ensures Valid() && !loading
      ensures !(installatie.DbOk? && installatie.data.Some?) ==>
                error == Some("Installatie niet gevonden.") && steps == old(steps)
      ensures installatie.DbOk? && installatie.data.Some? && !(machine.DbOk? && machine.data.Some?) ==>
                error == Some("Machine niet gevonden.") && steps == old(steps)
      ensures installatie.DbOk? && installatie.data.Some? && machine.DbOk? && machine.data.Some?
              && !(stappen.DbOk? && stappen.data.Some?) ==>
                error == Some("Installatiestappen niet gevonden.") && steps == old(steps)
      ensures error.None? <==> installatie.DbOk? && installatie.data.Some? && machine.DbOk? && machine.data.Some?
                               && stappen.DbOk? && stappen.data.Some?
      ensures error.None? ==> steps == DynamicSteps(stappen.data.value)
    {
      loading := true;
      error := None;
      if installatie.DbError? || installatie.data.None? {
        error := Some("Installatie niet gevonden.");
        loading := false;
        return;
      }
      if machine.DbError? || machine.data.None? {
        error := Some("Machine niet gevonden.");
        loading := false;
        return;
      }
      if stappen.DbError? || stappen.data.None? {
        error := Some("Installatiestappen niet gevonden.");
        loading := false;
        return;
      }
      steps := DynamicSteps(stappen.data.value);
      loading := false;
    }

    /** `handleNext`: forward while there is a next step, otherwise open the
        completion dialog. */
    method HandleNext()
      requires Valid()
      modifies this`step, this`showDialog
      ensures Valid()
      ensures old(step) < |steps| - 1 ==> step == old(step) + 1 && showDialog == old(showDialog)
      ensures old(step) >= |steps| - 1 ==> step == old(step) && showDialog
    {
      if step < |steps| - 1 {
        step := step + 1;
      } else {
        showDialog := true;
      }
    }

    /** `handleBack`: back unless already at the first step. */
    method HandleBack()
      requires Valid()
      modifies this`step
      ensures Valid()
      ensures step == if old(step) > 0 then old(step) - 1 else 0
    {
      if step > 0 {
        step := step - 1;
      }
    }
  }
}
