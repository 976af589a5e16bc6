/** The twelve-step questionnaire: which step may be left, which step comes
    next or before under each consultation type, which steps are skipped,
    and the component state (current step, the sending flag, the form record
    and the recording session) changed by its buttons and its finish handler. */
module Wizard {
  import opened FormTypes
  import opened Strings
  import opened ConsultationFormState
  import opened Recording
  import opened Wrappers

  const TotalSteps: int := 12

  /** `canProceed()`: the required field of the current step, if it has one, is filled. */
  predicate CanProceed(step: int, d: ConsultationFormData)
    ensures step != 1 && step != 3 && step != 4 && step != 5 && step != 6 && step != 8 && step != 9 ==>
      CanProceed(step, d)
  {
    if step == 1 then d.consultationType != Unset
    else if step == 3 then Trim(d.hda) != ""
    else if step == 4 then d.comorbidades.tem != ""
    else if step == 5 then d.medicacoes.tem != ""
    else if step == 6 then d.alergias.tem != ""
    else if step == 8 then Trim(d.hipoteseDiagnostica) != ""
    else if step == 9 then Trim(d.conduta) != ""
    else true
  }

  /** A step may be left unless its required field is empty; a free-text
      field made only of whitespace counts as empty. Steps 2, 7, 10, 11 and
      12 never block. */
  lemma CanProceedMeaning(step: int, d: ConsultationFormData)
    ensures CanProceed(step, d) <==>
      && (step == 1 ==> d.consultationType != Unset)
      && (step == 3 ==> HasContent(d.hda))
      && (step == 4 ==> d.comorbidades.tem != "")
      && (step == 5 ==> d.medicacoes.tem != "")
      && (step == 6 ==> d.alergias.tem != "")
      && (step == 8 ==> HasContent(d.hipoteseDiagnostica))
      && (step == 9 ==> HasContent(d.conduta))
  {
    TrimNonEmptyIff(d.hda);
    TrimNonEmptyIff(d.hipoteseDiagnostica);
    TrimNonEmptyIff(d.conduta);
  }

  /** On the initial record the type, history, yes/no and diagnosis steps
      are blocked (nothing is filled in yet) and the plan step is not (its
      text is pre-filled). */
  lemma InitialFormGates()
    ensures !CanProceed(1, InitialFormData())
    ensures CanProceed(9, InitialFormData())
    ensures !CanProceed(3, InitialFormData()) && !CanProceed(8, InitialFormData())
    ensures !CanProceed(4, InitialFormData()) && !CanProceed(5, InitialFormData())
    ensures !CanProceed(6, InitialFormData())
  {
    var d := InitialFormData();
    assert d.hda == "" && d.hipoteseDiagnostica == "";
    assert d.conduta[0] == '-' && !IsJsWhitespace(d.conduta[0]);
    TrimNonEmptyIff(d.conduta);
  }

  /** `getNextStep()`: always forward, at most one past the last step, and
      it skips steps only from step 10 or to the end. */
  function NextStep(step: int, t: ConsultationType): (n: int)
    ensures n > step
    ensures step <= TotalSteps ==> n <= TotalSteps + 1
    ensures n != step + 1 ==> step == 10 || n == TotalSteps + 1
  {
    if step == 10 then
      if t == Reavaliacao then 11
      else if t == Complementacao then 12
      else TotalSteps + 1
    else if step == 11 && t == Reavaliacao then TotalSteps + 1
    else if step == 12 && t == Complementacao then TotalSteps + 1
    else step + 1
  }

  /** `getPrevStep()`: always back, by one step or from a branch step to step 10. */
  function PrevStep(step: int, t: ConsultationType): (p: int)
    ensures p < step
    ensures p != step - 1 ==> p == 10 && (step == 11 || step == 12)
  {
    if step == 12 && t == Complementacao then 10
    else if step == 11 && t == Reavaliacao then 10
    else step - 1
  }

  /** `shouldShowStep()`: step 11 belongs to re-evaluations only, step 12 to complements only. */
  predicate ShouldShowStep(step: int, t: ConsultationType)
    ensures !ShouldShowStep(step, t) ==> step == 11 || step == 12
    ensures step == 11 && t == Reavaliacao ==> ShouldShowStep(step, t)
    ensures step == 12 && t == Complementacao ==> ShouldShowStep(step, t)
  {
    !(step == 11 && t != Reavaliacao) && !(step == 12 && t != Complementacao)
  }

  /** Reference definition: the first shown step after `step`, or one past
      the last step when none is left. */
  function FirstShownAfter(step: int, t: ConsultationType): (n: int)
    requires 0 <= step <= TotalSteps
    ensures step < n <= TotalSteps + 1
    decreases TotalSteps - step
  {
    if step >= TotalSteps then TotalSteps + 1
    else if ShouldShowStep(step + 1, t) then step + 1
    else FirstShownAfter(step + 1, t)
  }

  /** Reference definition: the last shown step before `step` (step 1 is always shown). */
  function LastShownBefore(step: int, t: ConsultationType): (p: int)
    requires 2 <= step
    ensures 1 <= p < step
    decreases step
  {
    if ShouldShowStep(step - 1, t) || step - 1 == 1 then step - 1
    else LastShownBefore(step - 1, t)
  }

  /** From a shown step, `getNextStep` moves to the first shown step after
      it, or past the end when every later step is skipped: it never lands
      on a hidden step and never jumps over a shown one. */
  lemma NextStepIsFirstShown(step: int, t: ConsultationType)
    requires 1 <= step <= TotalSteps && ShouldShowStep(step, t)
    ensures NextStep(step, t) == FirstShownAfter(step, t)
    ensures NextStep(step, t) > TotalSteps || ShouldShowStep(NextStep(step, t), t)
    ensures forall k | step < k < NextStep(step, t) && k <= TotalSteps :: !ShouldShowStep(k, t)
  {
    if step == 10 {
      assert FirstShownAfter(10, t) == if ShouldShowStep(11, t) then 11 else FirstShownAfter(11, t);
      assert FirstShownAfter(11, t) == if ShouldShowStep(12, t) then 12 else FirstShownAfter(12, t);
    } else if step == 11 {
      assert FirstShownAfter(11, t) == if ShouldShowStep(12, t) then 12 else FirstShownAfter(12, t);
    }
  }

  /** From a shown step other than the first, `getPrevStep` moves to the last shown step before it. */
  lemma PrevStepIsLastShown(step: int, t: ConsultationType)
    requires 2 <= step <= TotalSteps && ShouldShowStep(step, t)
    ensures PrevStep(step, t) == LastShownBefore(step, t)
    ensures ShouldShowStep(PrevStep(step, t), t)
  {
    if step == 12 {
      assert LastShownBefore(12, t) == if ShouldShowStep(11, t) then 11 else LastShownBefore(11, t);
    }
  }

  /** Going forward and then back returns to the shown step one started
      from, and so does going back and then forward. */
  lemma NextPrevRoundTrip(step: int, t: ConsultationType)
    requires 1 <= step <= TotalSteps && ShouldShowStep(step, t)
    ensures NextStep(step, t) <= TotalSteps ==> PrevStep(NextStep(step, t), t) == step
    ensures step >= 2 ==> NextStep(PrevStep(step, t), t) == step
  {
  }

  /** A redirect never lands on another redirect: only steps 11 and 12 are
      ever skipped, and a skipped step 11 is followed by step 12, which is
      either shown or followed by the end. */
  lemma RedirectSettles(step: int, t: ConsultationType)
    requires 1 <= step <= TotalSteps && !ShouldShowStep(step, t) && NextStep(step, t) <= TotalSteps
    ensures ShouldShowStep(NextStep(step, t), t) || NextStep(NextStep(step, t), t) > TotalSteps
  {
  }

  /** The Next button of the inline navigation is present; from a shown
      step it leads to a shown step. */
  predicate NextShown(step: int, t: ConsultationType)
    ensures NextShown(step, t) ==> step < NextStep(step, t) <= TotalSteps
    ensures NextShown(step, t) && ShouldShowStep(step, t) ==> ShouldShowStep(NextStep(step, t), t)
  {
    step < TotalSteps && NextStep(step, t) <= TotalSteps
  }

  /** The Finish button of the inline navigation is present; on a shown
      step that happens only when no shown step is left after it. */
  predicate FinishShown(step: int, t: ConsultationType)
    ensures FinishShown(step, t) && ShouldShowStep(step, t) ==>
      forall k | step < k <= TotalSteps :: !ShouldShowStep(k, t)
  {
    step == TotalSteps || NextStep(step, t) > TotalSteps
  }

  /** On every step exactly one of Next and Finish is present. */
  lemma NextXorFinish(step: int, t: ConsultationType)
    requires 1 <= step <= TotalSteps
    ensures NextShown(step, t) != FinishShown(step, t)
  {
  }

  /** What the component renders. */
  datatype Screen =
    | StepScreen(step: int)
    /** the "Consulta Finalizada" card shown when a skipped step has no shown step after it */
    | FinishedScreen
    /** nothing: the render that redirects a skipped step returns `null` */
    | Blank

  /** The record handed to `onComplete`: the form, the audio artifact (or
      none) and the recording time in seconds. */
  datatype FinalData = FinalData(form: ConsultationFormData, audioBlob: Option<AudioBlob>, recordingDuration: nat)

  /** One call of a form updater passed to the step components. */
  datatype FormEdit =
    | SetTop(field: TopField, value: FieldValue)
    | SetNested(key: NestedKey, text: string)
    | SetProtocol(flag: ProtocolFlag, on: bool)
    | SetSepse(sepse: SepseFlag, on: bool)

  predicate WellKinded(e: FormEdit) {
    e.SetTop? ==> Fits(e.field, e.value)
  }

  function ApplyEdit(d: ConsultationFormData, e: FormEdit): ConsultationFormData
    requires WellKinded(e)
  {
    match e
    case SetTop(f, v) => UpdateFormData(d, f, v)
    case SetNested(k, s) => UpdateNestedFormData(d, k, s)
    case SetProtocol(f, b) => UpdateProtocols(d, f, b)
    case SetSepse(f, b) => UpdateSepseAdulto(d, f, b)
  }

  /** The state of one `ConsultationForm` component. */
  class WizardForm {
    var currentStep: int
    var isSending: bool
    var form: ConsultationFormData
    const recorder: RecordingSession

    ghost predicate Valid()
      reads this, recorder
    {
      && 1 <= currentStep <= TotalSteps
      && recorder.Valid()
    }

    constructor ()
      ensures Valid() && fresh(recorder)
      ensures currentStep == 1 && !isSending && form == InitialFormData()
      ensures !recorder.isRecording && recorder.chunks == [] && recorder.recordingTime == 0
    {
      currentStep := 1;
      isSending := false;
      form := InitialFormData();
      recorder := new RecordingSession();
    }

    /** A step component calls one of the four updaters. */
    method Edit(e: FormEdit)
      requires Valid() && WellKinded(e)
      modifies this`form
      ensures Valid()
      ensures form == ApplyEdit(old(form), e)
    {
      form := ApplyEdit(form, e);
    }

    /** Previous: disabled on the first step and while sending; otherwise moves to `getPrevStep()`. */
    method ClickPrevious()
      requires Valid()
      modifies this`currentStep
      ensures Valid()
      ensures currentStep == if old(currentStep) == 1 || isSending then old(currentStep)
                             else PrevStep(old(currentStep), form.consultationType)
    {
      if currentStep != 1 && !isSending {
        currentStep := PrevStep(currentStep, form.consultationType);
      }
    }

    /** Next: present only when a next step exists, enabled only when the
        step can be left and nothing is being sent; moves to `getNextStep()`. */
    method ClickNext()
      requires Valid()
      modifies this`currentStep
      ensures Valid()
      ensures var t := form.consultationType;
        currentStep == if NextShown(old(currentStep), t) && CanProceed(old(currentStep), form) && !isSending
                       then NextStep(old(currentStep), t) else old(currentStep)
      ensures currentStep >= old(currentStep)
    {
      var t := form.consultationType;
      if NextShown(currentStep, t) && CanProceed(currentStep, form) && !isSending {
        currentStep := NextStep(currentStep, t);
      }
    }

    /** One render: a shown step is rendered as it is; a skipped step shows
        the closing card when `getNextStep()` is past the end, and otherwise
        sets the step to it and renders nothing, so that React renders again.
        That second render never redirects again. */
    method Render() returns (screen: Screen)
      requires Valid()
      modifies this`currentStep
      ensures Valid()
      ensures var t := form.consultationType;
        if ShouldShowStep(old(currentStep), t) then
          screen == StepScreen(old(currentStep)) && currentStep == old(currentStep)
        else if NextStep(old(currentStep), t) > TotalSteps then
          screen == FinishedScreen && currentStep == old(currentStep)
        else
          screen == Blank && currentStep == NextStep(old(currentStep), t)
      ensures screen.StepScreen? ==> screen.step == currentStep && ShouldShowStep(currentStep, form.consultationType)
      ensures screen == Blank ==>
        ShouldShowStep(currentStep, form.consultationType) || NextStep(currentStep, form.consultationType) > TotalSteps
    {
      var t := form.consultationType;
      if ShouldShowStep(currentStep, t) {
        return StepScreen(currentStep);
      }
      var next := NextStep(currentStep, t);
      if next > TotalSteps {
        return FinishedScreen;
      }
      RedirectSettles(currentStep, t);
      currentStep := next;
      screen := Blank;
    }

    /** The header's Stop button (present while recording, disabled while sending). */
    method ClickStopRecording()
      requires Valid()
      modifies recorder
      ensures Valid()
      ensures isSending || !old(recorder.isRecording) ==> unchanged(recorder)
      ensures !isSending && old(recorder.isRecording) ==>
        !recorder.isRecording && recorder.chunks == old(recorder.chunks)
    {
      if !isSending && recorder.isRecording {
        var _ := recorder.Stop();
      }
    }

    /** The header's Start button (present while not recording, disabled while sending). */
    method ClickStartRecording(micGranted: bool, recorderOk: bool)
      requires Valid()
      modifies recorder
      ensures Valid()
      ensures isSending || old(recorder.isRecording) || !micGranted ==> unchanged(recorder)
      ensures !isSending && !old(recorder.isRecording) && micGranted && !recorderOk ==>
        !recorder.isRecording && recorder.streamLive && recorder.chunks == old(recorder.chunks)
      ensures !isSending && !old(recorder.isRecording) && micGranted && recorderOk ==>
        recorder.isRecording && !recorder.isPaused && recorder.recordingTime == 0 && recorder.chunks == []
    {
      if !isSending && !recorder.isRecording {
        recorder.Start(micGranted, recorderOk);
      }
    }

    /** First half of `handleFinish`, up to the webhook call: refuses while a
        send is under way; otherwise raises `isSending`, stops the recording
        and assembles the final record from the form, the audio and the
        recording time. */
    method BeginFinish() returns (data: Option<FinalData>)
      requires Valid()
      modifies this`isSending, recorder
      ensures Valid()
      ensures old(isSending) ==> data == None && isSending && unchanged(recorder)
      ensures !old(isSending) ==>
        && isSending
        && data == Some(FinalData(form,
                                  if old(recorder.isRecording) then Some(AudioBlob(Concat(old(recorder.chunks)))) else None,
                                  old(recorder.recordingTime)))
        && !recorder.isRecording && recorder.chunks == old(recorder.chunks)
    {
      if isSending {
        return None;
      }
      isSending := true;
      var duration := recorder.recordingTime;
      var audio := recorder.Stop();
      data := Some(FinalData(form, audio, duration));
    }

    /** Second half of `handleFinish`, after the webhook call: the record
        reaches `onComplete` only when the call succeeded, and `isSending`
        is cleared either way. */
    method CompleteFinish(data: FinalData, webhookOk: bool) returns (delivered: Option<FinalData>)
      requires Valid()
      modifies this`isSending
      ensures Valid() && !isSending
      ensures delivered == if webhookOk then Some(data) else None
    {
      isSending := false;
      delivered := if webhookOk then Some(data) else None;
    }

    /** `handleFinish` run to its end without interruption. */
    method HandleFinish(webhookOk: bool) returns (delivered: Option<FinalData>)
      requires Valid()
      modifies this`isSending, recorder
      ensures Valid()
      ensures old(isSending) ==> delivered == None && isSending && unchanged(recorder)
      ensures !old(isSending) ==> !isSending && !recorder.isRecording
      ensures !old(isSending) && webhookOk ==>
        delivered == Some(FinalData(form,
                                    if old(recorder.isRecording) then Some(AudioBlob(Concat(old(recorder.chunks)))) else None,
                                    old(recorder.recordingTime)))
      ensures !webhookOk ==> delivered == None
    {
      var data := BeginFinish();
      if data.None? {
        return None;
      }
      delivered := CompleteFinish(data.value, webhookOk);
    }
  }
}
