/** The single-page consultation form: age, sex, free notes and vital signs
    typed while the consultation is recorded, submitted once age and sex are
    filled in. */
module SimplifiedForm {
  import opened Wrappers
  import opened FormTypes
  import opened Recording

  /** The patient fields (`formData`). */
  datatype SimpleForm = SimpleForm(idade: string, sexo: string, observacoes: string)

  datatype SimpleField = Idade | Sexo | Observacoes

  function GetSimple(f: SimpleForm, k: SimpleField): string {
    match k
    case Idade => f.idade
    case Sexo => f.sexo
    case Observacoes => f.observacoes
  }

  /** `updateFormData(field, value)`: exactly the named field changes. */
  function SetSimple(f: SimpleForm, k: SimpleField, value: string): (r: SimpleForm)
    ensures GetSimple(r, k) == value
    ensures forall j: SimpleField | j != k :: GetSimple(r, j) == GetSimple(f, j)
  {
    match k
    case Idade => f.(idade := value)
    case Sexo => f.(sexo := value)
    case Observacoes => f.(observacoes := value)
  }

  /** The required fields are filled (`formData.idade && formData.sexo`). */
  predicate RequiredFilled(f: SimpleForm) {
    f.idade != "" && f.sexo != ""
  }

  /** The submit button's `disabled`. */
  predicate SubmitDisabled(isSubmitting: bool, f: SimpleForm) {
    isSubmitting || f.idade == "" || f.sexo == ""
  }

  /** The submit button is enabled exactly when no submission is under way
      and both required fields are filled, so an enabled button always
      passes the handler's validation. */
  lemma SubmitEnabledIff(isSubmitting: bool, f: SimpleForm)
    ensures !SubmitDisabled(isSubmitting, f) <==> !isSubmitting && RequiredFilled(f)
  {
  }

  /** What `onComplete` receives (the timestamp left out). */
  datatype SubmitPayload = SubmitPayload(
    form: SimpleForm, sinaisVitais: SinaisVitais, audioBlob: Option<AudioBlob>, recordingDuration: nat)

  /** The state of one `SimplifiedConsultationForm` component. */
  class SimplifiedConsultation {
    var isSubmitting: bool
    var form: SimpleForm
    var sinaisVitais: SinaisVitais
    const recorder: RecordingSession

    ghost predicate Valid()
      reads this, recorder
    {
      recorder.Valid()
    }

    constructor ()
      ensures Valid() && fresh(recorder)
      ensures !isSubmitting && form == SimpleForm("", "", "")
      ensures forall v: VitalSign :: GetVital(sinaisVitais, v) == ""
    {
      isSubmitting := false;
      form := SimpleForm("", "", "");
      sinaisVitais := SinaisVitais("", "", "", "", "", "", "", "");
      recorder := new RecordingSession();
    }

    /** `updateFormData` */
    method UpdateFormData(k: SimpleField, value: string)
      requires Valid()
      modifies this`form
      ensures Valid()
      ensures form == SetSimple(old(form), k, value)
    {
      form := SetSimple(form, k, value);
    }

    /** `updateSinaisVitais`: exactly the named sign changes. */
    method UpdateSinaisVitais(v: VitalSign, value: string)
      requires Valid()
      modifies this`sinaisVitais
      ensures Valid()
      ensures GetVital(sinaisVitais, v) == value
      ensures forall g: VitalSign | g != v :: GetVital(sinaisVitais, g) == GetVital(old(sinaisVitais), g)
    {
      sinaisVitais := SetVital(sinaisVitais, v, value);
    }

    /** The pause/resume button, present while recording: it pauses a
        running recording and resumes a paused one. */
    method TogglePause()
      requires Valid()
      modifies recorder
      ensures Valid()
      ensures old(recorder.isRecording) ==>
        recorder.isRecording && recorder.isPaused == !old(recorder.isPaused)
        && recorder.recordingTime == old(recorder.recordingTime) && recorder.chunks == old(recorder.chunks)
      ensures !old(recorder.isRecording) ==> unchanged(recorder)
    {
      if recorder.isRecording {
        if recorder.isPaused {
          recorder.Resume();
        } else {
          recorder.Pause();
        }
      }
    }

    /** `handleSubmit`. Without age or sex nothing happens: the recording
        goes on, nothing is submitted and `isSubmitting` stays as it was.
        Otherwise `isSubmitting` is raised, the recording is stopped, and
        the form, the vital signs, the audio and the recording time reach
        `onComplete`; only when that callback throws is `isSubmitting`
        lowered again. */
    method HandleSubmit(callbackThrows: bool) returns (submitted: Option<SubmitPayload>)
      requires Valid()
      modifies this`isSubmitting, recorder
      ensures Valid()
      ensures !RequiredFilled(form) ==>
        submitted == None && isSubmitting == old(isSubmitting) && unchanged(recorder)
      ensures RequiredFilled(form) ==>
        && submitted == Some(SubmitPayload(form, sinaisVitais,
                                           if old(recorder.isRecording) then Some(AudioBlob(Concat(old(recorder.chunks)))) else None,
                                           old(recorder.recordingTime)))
        && !recorder.isRecording
        && isSubmitting == !callbackThrows
    {
      if form.idade == "" || form.sexo == "" {
        return None;
      }
      isSubmitting := true;
      var duration := recorder.recordingTime;
      var audio := recorder.Stop();
      submitted := Some(SubmitPayload(form, sinaisVitais, audio, duration));
      if callbackThrows {
        isSubmitting := false;
      }
    }
  }
}
