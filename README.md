# med-aid-complete: a verified model of the consultation workflow

This project models the logic underneath the med-aid-complete clinical
consultation app, in Dafny. The app has these parts:

- a twelve-step consultation questionnaire that records the consultation audio while the doctor fills it in;
- a review screen where the doctor picks, field by field, their own answer or the AI's suggestion;
- a backend function that turns the reviewed record into the final document and marks the consultation completed;
- the dashboard's list of consultations;
- a simplified one-page form;
- two waiting screens whose step indicator follows a fixed schedule.

Each source file becomes one Dafny module:

| module | file | source |
|---|---|---|
| `FormTypes` | `form_types.dfy` | the questionnaire's record types (`src/components/consultation/types.ts`); the consultation type is a datatype, and `Unset` stands for `''` |
| `ConsultationFormState` | `use_consultation_form.dfy` | the initial record and the four updaters of `useConsultationForm`, as pure functions |
| `Recording` | `use_recording.dfy` | `useRecording`, as the class `RecordingSession` |
| `Wizard` | `consultation_form.dfy` | `ConsultationForm`: the step gate and step navigation as functions; the component as the class `WizardForm` |
| `NavigationButtons` | `navigation_buttons.dfy` | the button flags of `NavigationButtons` |
| `FinalDocument` | `generate_final_document.dfy` | the `generate-final-document` backend function |
| `Review` | `review_interface.dfy` | `ReviewInterface`: the mapping, selection and payload functions, and the class `ReviewSession` |
| `ConsultationStore` | `use_consultations.dfy` | `useConsultations`, as the class `ConsultationList` |
| `Dashboard` | `index_page.dfy` | the `Index` page, as the class `DashboardPage` |
| `SimplifiedForm` | `simplified_consultation_form.dfy` | `SimplifiedConsultationForm` |
| `Loaders` | `loaders.dfy` | `ProcessingLoader` and `DocumentGeneratingLoader`, as one class `Loader` run with two schedules |

Two more modules support the others:

- `Strings` models the JavaScript string operations the app relies on: `trim`, `split`, `join`, `toString` and `padStart`.
- `Wrappers` holds `Option`.

The source has four kinds of outside input. Each is a parameter of the operation that receives it:

- database results (`LoadOutcome`, `FetchOutcome`, `serviceOk`, `updateOk`);
- microphone access and recorder construction (`micGranted`, `recorderOk`);
- webhook results (`webhookOk`, `resultOk`);
- callbacks that throw (`callbackThrows`).

The platform's callbacks are methods called as events: the one-second recording timer is `RecordingSession.Tick`, the recorder's data event is `ChunkAvailable`, and the loader timer is `Loader.Tick`.

`handleFinish` awaits in two places. The model splits it at the webhook call, into `BeginFinish` and `CompleteFinish`. A second click that arrives between the two halves meets the `isSending` guard.

## Model

| member | source | states |
|---|---|---|
| Strings.TrimNonEmptyIff | src/components/ConsultationForm.tsx:35-40 | `s.trim() !== ''` holds exactly when `s` has a character that is not JavaScript whitespace |
| Strings.Split | src/components/ReviewInterface.tsx:142 | `split` yields at least one part, no part contains the separator, and joining the parts gives back the string |
| Strings.SplitJoin | src/components/ReviewInterface.tsx:142 | splitting a join of separator-free parts gives back exactly those parts |
| Strings.SplitPair | src/components/ReviewInterface.tsx:142 | splitting `a-b`, where neither `a` nor `b` contains `-`, gives exactly `[a, b]` |
| Strings.NatToDecimal | src/hooks/useRecording.ts:125 | `toString` of a whole number is a digit string with no leading zero, and it denotes that number |
| Strings.PadStart | src/hooks/useRecording.ts:125 | `padStart` only adds fill characters in front: the length is the larger of the width and the original length, and the original is the suffix |
| Strings.PadStartDigits | src/hooks/useRecording.ts:125 | zero-padding a digit string keeps its value |
| FormTypes.SetVital | src/components/consultation/types.ts:21-30 | setting one vital sign changes that sign and no other |
| ConsultationFormState.InitialFormFacts | src/hooks/useConsultationForm.ts:6-38 | initially the type is unset, the history and diagnosis are empty, every yes/no question is unanswered and every protocol flag (adult sepsis included) is off; every physical-exam section is non-empty and the plan has non-whitespace content |
| ConsultationFormState.UpdateFormData | src/hooks/useConsultationForm.ts:40-42 | the named top-level field takes the value; every other top-level field, every nested sub-field and the protocols are unchanged |
| ConsultationFormState.UpdateNestedFormData | src/hooks/useConsultationForm.ts:44-49 | only the named sub-field of the named parent changes; its siblings, the other parents, the top-level fields and the protocols are unchanged |
| ConsultationFormState.UpdateProtocols | src/hooks/useConsultationForm.ts:51-56 | only the named protocol flag changes; the other flags, the adult-sepsis flags and the rest of the record are unchanged |
| ConsultationFormState.UpdateSepseAdulto | src/hooks/useConsultationForm.ts:58-66 | only the named adult-sepsis flag changes; the other two sepsis flags, every other protocol flag and the rest of the record are unchanged |
| Recording.Concat | src/hooks/useRecording.ts:99 | the artifact's length is the sum of the chunk sizes |
| Recording.ConcatContainsChunk | src/hooks/useRecording.ts:99 | each chunk's bytes appear in the artifact, in arrival order, at the offset given by the sizes of the chunks before it |
| Recording.ConcatEmptyIff | src/hooks/useRecording.ts:128-130 | when every kept chunk is non-empty, the artifact is empty exactly when there are no chunks |
| Recording.TwoDigitPad | src/hooks/useRecording.ts:125 | `n.toString().padStart(2,'0')` is a digit string of value `n` with at least two characters, and exactly two when `n < 100` |
| Recording.MinutesAndSeconds | src/hooks/useRecording.ts:123-124 | seconds split into whole minutes and a remainder below 60; fewer than 6000 seconds means fewer than 100 minutes |
| Recording.FormatTimeReadsBack | src/hooks/useRecording.ts:122-126 | `formatTime` reads back: digits, a colon, then two digits below 60; minutes × 60 + seconds is the input; the minutes are never truncated; the result is exactly `MM:SS` below 6000 seconds |
| Recording.RecordingSession.constructor | src/hooks/useRecording.ts:5-12 | the session starts idle, at time 0, with no chunks, no recorder, no stream and no interval |
| Recording.RecordingSession.Start | src/hooks/useRecording.ts:14-61 | if microphone access fails, nothing changes; if the recorder constructor then throws, only the granted stream is kept; otherwise it is recording, not paused, at time 0, with no chunks and a running interval; an interval that was still running leaks |
| Recording.RecordingSession.Pause | src/hooks/useRecording.ts:63-77 | acts only while recording and not paused: sets paused and stops the interval, keeping time and chunks; in any other state nothing changes |
| Recording.RecordingSession.Resume | src/hooks/useRecording.ts:79-93 | acts only while recording and paused: clears paused and restarts the interval, keeping time and chunks; in any other state nothing changes |
| Recording.RecordingSession.Tick | src/hooks/useRecording.ts:45-47 | each firing of a live interval adds exactly one second; with no interval running the time stays |
| Recording.RecordingSession.ChunkAvailable | src/hooks/useRecording.ts:25-30 | a non-empty chunk is appended at the end and an empty one is dropped; the artifact grows by the chunk's bytes |
| Recording.RecordingSession.Stop | src/hooks/useRecording.ts:95-120 | when not recording, it yields null and changes nothing; otherwise it yields the concatenation of all chunks and ends recording, pausing, the interval and the stream |
| Recording.RecordingSession.GetAudioBlob | src/hooks/useRecording.ts:128-130 | yields an artifact exactly when there are chunks; that artifact is their non-empty concatenation |
| Wizard.CanProceed | src/components/ConsultationForm.tsx:32-43 | a step without a required field (2, 7, 10, 11, 12) can always be left |
| Wizard.NextStep | src/components/ConsultationForm.tsx:300-313 | always forward, at most one past step 12, and it skips steps only from step 10 or to the end |
| Wizard.PrevStep | src/components/ConsultationForm.tsx:315-319 | always back, by one step, or from a branch step (11 or 12) to step 10 |
| Wizard.ShouldShowStep | src/components/ConsultationForm.tsx:321-325 | only steps 11 and 12 are ever hidden; 11 is shown for a re-evaluation and 12 for a complement |
| Wizard.RedirectSettles | src/components/ConsultationForm.tsx:327-364 | the step a redirect moves to is shown, or is followed by the end, so the render after a redirect never redirects again |
| Wizard.NextShown | src/components/ConsultationForm.tsx:429 | when Next is rendered it leads forward to a step no later than 12, and from a shown step to a shown step |
| Wizard.FinishShown | src/components/ConsultationForm.tsx:438 | on a shown step, Finish is rendered only when no later step is shown |
| Wizard.CanProceedMeaning | src/components/ConsultationForm.tsx:32-43 | a step may be left exactly when its required field is filled: type on 1, non-blank history on 3, the yes/no answer on 4, 5 and 6, non-blank diagnosis on 8, non-blank plan on 9; any other step always |
| Wizard.InitialFormGates | src/components/ConsultationForm.tsx:32-43 | on the initial record steps 1, 3, 4, 5, 6 and 8 are blocked and step 9 is not |
| Wizard.FirstShownAfter | src/components/ConsultationForm.tsx:321-325 | reference definition: the first step after `step` that `shouldShowStep` accepts, or 13; it lies strictly after `step` |
| Wizard.LastShownBefore | src/components/ConsultationForm.tsx:321-325 | reference definition: the last shown step before `step`; it lies in `[1, step)` |
| Wizard.NextStepIsFirstShown | src/components/ConsultationForm.tsx:300-325 | from a shown step, `getNextStep` is the first shown step after it, so it is shown or past 12 and no shown step is skipped |
| Wizard.PrevStepIsLastShown | src/components/ConsultationForm.tsx:315-325 | from a shown step other than 1, `getPrevStep` is the last shown step before it, and that step is shown |
| Wizard.NextPrevRoundTrip | src/components/ConsultationForm.tsx:300-319 | from a shown step, forward then back returns to it when forward stays within 12, and back then forward returns to it from step 2 on |
| Wizard.NextXorFinish | src/components/ConsultationForm.tsx:429-439 | on every step 1..12 exactly one of Next and Finish is rendered |
| Wizard.WizardForm.constructor | src/components/ConsultationForm.tsx:20-23 | starts on step 1, not sending, with the initial record and an idle recorder |
| Wizard.WizardForm.Edit | src/components/ConsultationForm.tsx:22 | a step component's updater call applies exactly that updater to the form |
| Wizard.WizardForm.ClickPrevious | src/components/ConsultationForm.tsx:419-421 | disabled on step 1 and while sending; otherwise moves to `getPrevStep()` |
| Wizard.WizardForm.ClickNext | src/components/ConsultationForm.tsx:429-432 | moves to `getNextStep()` only when Next is rendered, the step can be left and nothing is being sent; the step never decreases |
| Wizard.WizardForm.Render | src/components/ConsultationForm.tsx:327-364 | one render: a shown step renders as it is; a skipped step shows the closing card when `getNextStep()` is past 12, and otherwise sets the step to it and renders nothing; the render after that never redirects again |
| Wizard.WizardForm.ClickStopRecording | src/components/ConsultationForm.tsx:384 | stops a running recording unless a send is under way, keeping the chunks |
| Wizard.WizardForm.ClickStartRecording | src/components/ConsultationForm.tsx:393 | starts from an idle recorder unless a send is under way, the microphone is refused or the recorder cannot be built; in the last case only the stream is kept |
| Wizard.WizardForm.BeginFinish | src/components/ConsultationForm.tsx:45-60 | does nothing while sending; otherwise raises `isSending`, stops the recording, and builds the record from the form, the concatenated audio (null if it was not recording) and the recording time |
| Wizard.WizardForm.CompleteFinish | src/components/ConsultationForm.tsx:62-82 | the record reaches `onComplete` only when the webhook call succeeds; `isSending` is cleared either way |
| Wizard.WizardForm.HandleFinish | src/components/ConsultationForm.tsx:45-83 | an uninterrupted `handleFinish`: while sending it is a no-op; otherwise it ends with `isSending` cleared and the recording stopped, and delivers the record exactly when the webhook succeeds |
| NavigationButtons.Render | src/components/consultation/NavigationButtons.tsx:28-71 | Next is shown iff not `isLastStep` and Finish iff `isLastStep`, so exactly one is shown; Previous is disabled iff on step 1 or sending; Next and Finish are disabled iff the step cannot be left or a send is under way |
| NavigationButtons.AgreesWithWizard | src/components/consultation/NavigationButtons.tsx:28-57 | given the questionnaire's own values, the bar shows and disables Next, Finish and Previous exactly as the questionnaire's inline buttons do |
| FinalDocument.CountOf | supabase/functions/generate-final-document/index.ts:114-115 | a filter count never exceeds the number of values |
| FinalDocument.CountOfIsMultiplicity | supabase/functions/generate-final-document/index.ts:114-115 | the filter count is the value's multiplicity in the list |
| FinalDocument.CountsOfTwo | supabase/functions/generate-final-document/index.ts:114-115 | the counts of two distinct values add up to at most the number of entries, and to exactly that when every entry is one of them |
| FinalDocument.GenerateDocumentContent | supabase/functions/generate-final-document/index.ts:87-118 | the header repeats patient and type, the content is the reviewed data unchanged, and the AI and doctor contributions are the multiplicities of 'ai' and 'doctor' among the sources, together at most their number |
| FinalDocument.Handle | supabase/functions/generate-final-document/index.ts:11-85 | a preflight gets an empty 200; otherwise it succeeds exactly when the body is well formed and the status update works, and then the consultation is marked completed and the document returned with the request's header and content, its sources and the number of 'ai' and of 'doctor' among them; a failed update gives 500 with the fixed message; a malformed body gives 500; status 500 goes with a failure body |
| Review.SaveText | src/components/ReviewInterface.tsx:143-150 | the edited side takes the text and becomes the selection; the other side is unchanged |
| Review.WithField | src/components/ReviewInterface.tsx:125-128 | replaces one field and leaves the other five unchanged |
| Review.SelectSource | src/components/ReviewInterface.tsx:122-129 | only the chosen field's selection changes; both its texts and the other fields are unchanged |
| Review.ShownText | src/components/ReviewInterface.tsx:64-105 | a stored value's text (the `especificar` member for an object) unless it is missing or empty, and otherwise the placeholder |
| Review.MapField | src/components/ReviewInterface.tsx:63-106 | one field: the doctor's side selected, each side the stored text or its placeholder |
| Review.InitialReview | src/components/ReviewInterface.tsx:63-106 | every field starts on the doctor's side; each side shows the stored text or its placeholder ('Não informado', 'Análise não disponível'), so no side is empty |
| Review.ParseEditingKey | src/components/ReviewInterface.tsx:142 | a key and a source read from the editing key open it, followed by its end or by another '-' |
| Review.EditingKeyRoundTrip | src/components/ReviewInterface.tsx:136-142 | splitting `field-source` on `-` gives back the field and the source it was built from |
| Review.BuildPayload | src/components/ReviewInterface.tsx:163-182 | the payload carries id, patient and type; each reviewed text is the field's selected text and each source is its selection |
| Review.SourceValues | src/components/ReviewInterface.tsx:175-182 | the values of `selectedSources`, in field order, as wire names |
| Review.Selections | src/components/ReviewInterface.tsx:433 | the six fields' selections, in field order, as wire names |
| Review.SummaryCountsAddUp | src/components/ReviewInterface.tsx:433-439 | the summary's doctor and AI counts add up to six |
| Review.DocumentMatchesSummary | src/components/ReviewInterface.tsx:163-182 | the document built from the payload reports the same AI and doctor counts as the summary, together six, and carries each field's selected text |
| Review.ReviewSession.constructor | src/components/ReviewInterface.tsx:34-39 | starts with nothing loaded, loading, not editing and not generating |
| Review.ReviewSession.Load | src/components/ReviewInterface.tsx:45-120 | a found consultation is stored with its mapped review data; a missing one or a failed read goes back and leaves the data; loading ends either way |
| Review.ReviewSession.FieldSelect | src/components/ReviewInterface.tsx:122-129 | applies `SelectSource` to loaded data; a no-op before loading |
| Review.ReviewSession.Edit | src/components/ReviewInterface.tsx:131-137 | loads the current text of that side and sets the editing key `field-source`; a no-op before loading |
| Review.ReviewSession.ChangeEditingText | src/components/ReviewInterface.tsx:266 | the edit box's text becomes the typed text |
| Review.ReviewSession.CancelEdit | src/components/ReviewInterface.tsx:271 | editing stops |
| Review.ReviewSession.SaveEdit | src/components/ReviewInterface.tsx:139-154 | writes the typed text into the edited side, selects that side, leaves the other fields unchanged and clears the editing state; a no-op when nothing is edited or loaded |
| Review.ReviewSession.GenerateDocument | src/components/ReviewInterface.tsx:156-211 | nothing is sent before loading; otherwise it sends the payload of the selected texts, reports completion exactly when the result succeeds, and leaves `generatingDocument` false |
| ConsultationStore.Merge | src/hooks/useConsultations.ts:70 | each column the update gives replaces the entry's; the others stay |
| ConsultationStore.MergeNoChangeAndIdempotent | src/hooks/useConsultations.ts:70 | an update with no columns changes nothing; applying an update twice is applying it once |
| ConsultationStore.MergeOverride | src/hooks/useConsultations.ts:70 | two updates in a row are one update in which the later columns override the earlier ones |
| ConsultationStore.SetStatusById | src/hooks/useConsultations.ts:33-39 | the same length; entries with the id take the status and all others are unchanged |
| ConsultationStore.MergeById | src/hooks/useConsultations.ts:66-74 | the same length; entries with the id get the update merged in and all others are unchanged |
| ConsultationStore.MergeByIdOverride | src/hooks/useConsultations.ts:66-74 | two updates of the same id in a row are the one combined update, when the first keeps the id |
| ConsultationStore.MergeByIdNoChange | src/hooks/useConsultations.ts:66-74 | an update with no columns leaves the list as it is |
| ConsultationStore.SetStatusIsMerge | src/hooks/useConsultations.ts:30-74 | a status update is the partial update that gives only the status |
| ConsultationStore.SetStatusIdempotent | src/hooks/useConsultations.ts:33-39 | setting the same status twice equals setting it once, and ids never change |
| ConsultationStore.SetStatusReachesAll | src/hooks/useConsultations.ts:33-39 | afterwards an entry has the status exactly when it had it before or has the id |
| ConsultationStore.ConsultationList.constructor | src/hooks/useConsultations.ts:7-9 | empty list, loading, no error |
| ConsultationStore.ConsultationList.FetchConsultations | src/hooks/useConsultations.ts:11-28 | the fetched rows replace the list and the error is cleared; on a throw the list stays and the error is the message or 'Erro ao carregar consultas'; loading always ends false |
| ConsultationStore.ConsultationList.UpdateConsultationStatus | src/hooks/useConsultations.ts:30-60 | after the service accepts, the list is `SetStatusById`; when it throws, the list is unchanged |
| ConsultationStore.ConsultationList.AddConsultation | src/hooks/useConsultations.ts:62-64 | prepends: the length grows by one, the head is the new entry and the tail is the old list |
| ConsultationStore.ConsultationList.UpdateConsultation | src/hooks/useConsultations.ts:66-74 | the list becomes `MergeById` of the old list |
| Dashboard.GetStatusText | src/pages/Index.tsx:64-75 | the three known statuses get their fixed labels; any other text is returned unchanged |
| Dashboard.StatusLabelsDistinct | src/pages/Index.tsx:64-75 | two statuses get the same label exactly when they are the same status |
| Dashboard.GetStatusColor | src/pages/Index.tsx:38-49 | a fixed badge colour for each known status, grey for anything else |
| Dashboard.StatusColorsDistinct | src/pages/Index.tsx:38-49 | the three statuses get three different colours, none of them the grey of an unknown status |
| Dashboard.CountStatus | src/pages/Index.tsx:174 | a status count never exceeds the list length |
| Dashboard.CountsPartition | src/pages/Index.tsx:164-185 | the three status counts add up to the total card |
| Dashboard.CountAfterPrepend | src/pages/Index.tsx:99 | prepending adds one to the count of the new entry's status and leaves the other counts |
| Dashboard.Initials | src/pages/Index.tsx:213 | the first characters of the first two words (non-empty space-separated parts), in order; fewer when the name has fewer words |
| Dashboard.FirstChars | src/pages/Index.tsx:213 | one character per non-empty part, the first character of that part, in order; empty parts give nothing |
| Dashboard.InitialsOfTwoWords | src/pages/Index.tsx:213 | a name of two words separated by one space has the first letter of each as its initials |
| Dashboard.InitialsOfMariaSilva | src/pages/Index.tsx:213 | 'Maria Silva' gives 'MS' |
| Dashboard.InitialsFromName | src/pages/Index.tsx:213 | every initial is a character of the name other than a space, and a name has initials exactly when it has a character other than a space |
| Dashboard.ShownScreen | src/pages/Index.tsx:103-134 | the questionnaire shows exactly in the consultation view; the review shows exactly in the review view with a non-empty selection, for that consultation |
| Dashboard.CompleteById | src/pages/Index.tsx:122-128 | the same length; entries with the selected id become completed and all others are unchanged |
| Dashboard.CompleteByIdCount | src/pages/Index.tsx:120-130 | completing never lowers the completed count and never raises the pending count |
| Dashboard.DashboardPage.constructor | src/pages/Index.tsx:18-36 | the dashboard view, no selection, and the two sample consultations |
| Dashboard.DashboardPage.StartNewConsultation | src/pages/Index.tsx:77-79 | switches to the questionnaire |
| Dashboard.DashboardPage.OpenReview | src/pages/Index.tsx:81-84 | selects the consultation and switches to the review, which is then the screen shown for a non-empty id |
| Dashboard.DashboardPage.HandleConsultationComplete | src/pages/Index.tsx:86-101 | prepends one entry awaiting review, typed with the questionnaire's type or 'Avaliação médica' when none was chosen; the pending count grows by one, the completed count stays, and the view returns to the dashboard |
| Dashboard.DashboardPage.ReviewCompleted | src/pages/Index.tsx:120-130 | only entries with the selected id become completed; back to the dashboard |
| Dashboard.DashboardPage.BackToDashboard | src/pages/Index.tsx:119 | back to the dashboard |
| SimplifiedForm.SetSimple | src/components/SimplifiedConsultationForm.tsx:118-120 | the named field takes the value and the other two are unchanged |
| SimplifiedForm.SubmitEnabledIff | src/components/SimplifiedConsultationForm.tsx:330 | the submit button is enabled exactly when nothing is submitting and both age and sex are filled |
| SimplifiedForm.SimplifiedConsultation.constructor | src/components/SimplifiedConsultationForm.tsx:29-52 | not submitting; every field and vital sign empty; a fresh idle recorder |
| SimplifiedForm.SimplifiedConsultation.UpdateFormData | src/components/SimplifiedConsultationForm.tsx:118-120 | the form becomes `SetSimple` of the old form |
| SimplifiedForm.SimplifiedConsultation.UpdateSinaisVitais | src/components/SimplifiedConsultationForm.tsx:122-124 | exactly the named vital sign changes |
| SimplifiedForm.SimplifiedConsultation.TogglePause | src/components/SimplifiedConsultationForm.tsx:144-146 | while recording it flips paused and keeps time and chunks; otherwise nothing changes |
| SimplifiedForm.SimplifiedConsultation.HandleSubmit | src/components/SimplifiedConsultationForm.tsx:79-116 | without age or sex: nothing is submitted, `isSubmitting` and the recorder are untouched; otherwise the recording stops, the form, vital signs, audio and recording time are submitted, and `isSubmitting` stays true unless the callback throws |
| Loaders.AccMonotone | src/components/ProcessingLoader.tsx:62-64 | the running sum of durations never decreases |
| Loaders.FindFrom | src/components/ProcessingLoader.tsx:62-69 | the scan from step `i` stops at the first step whose accumulated time reaches the elapsed time |
| Loaders.StepAt | src/components/ProcessingLoader.tsx:61-69 | within the total, the step is the least index whose accumulated duration is at least the elapsed time |
| Loaders.LeastIsStep | src/components/ProcessingLoader.tsx:61-69 | any index with that least property is the step |
| Loaders.StepAtMonotone | src/components/ProcessingLoader.tsx:61-69 | more elapsed time never gives an earlier step |
| Loaders.StepAtTotalIsLast | src/components/ProcessingLoader.tsx:61-69 | when the last duration is positive, the total elapsed time gives the last step |
| Loaders.ProgressAt | src/components/ProcessingLoader.tsx:58 | progress lies in 0..100, is 100 from the total on, and is otherwise the exact percentage |
| Loaders.MultiplesGap | src/components/ProcessingLoader.tsx:51-55 | two multiples of the interval less than one interval apart are equal |
| Loaders.ProcessingSchedule | src/components/ProcessingLoader.tsx:10-51 | six positive durations totalling 30000 ms, and a 100 ms interval that divides the total |
| Loaders.DocumentSchedule | src/components/DocumentGeneratingLoader.tsx:14-49 | five positive durations totalling 12000 ms, and a 50 ms interval that divides the total |
| Loaders.ShownAt | src/components/ProcessingLoader.tsx:61-69 | the shown step is a valid index, and within the total it is `StepAt` |
| Loaders.TickStep | src/components/ProcessingLoader.tsx:54-69 | a tick keeps the elapsed time a multiple of the interval, never moves the shown step back, and past the total leaves it where it was |
| Loaders.Loader.constructor | src/components/ProcessingLoader.tsx:7-8 | starts at step 0, progress 0 and elapsed 0 |
| Loaders.Loader.Tick | src/components/ProcessingLoader.tsx:54-70 | elapsed grows by the interval and progress is recomputed; within the total the scan finds `StepAt(elapsed)`, and past it the step stays; the step never decreases and stays a valid index |

## Left out

- Rendering is not modelled: JSX, CSS classes, icons and toasts carry no logic beyond the flags modelled above. The presentational step components only forward values to the updaters.
- The Supabase calls are not modelled, on either side. They appear as outcome parameters: the database client in the backend function, `consultationService` and `documentService`.
- The webhooks are outcome parameters. `src/utils/webhookService.ts` defines `sendToWebhook` but no `generateFinalDocument`, so the review's document call is not part of this model beyond its success flag. No retry, timeout or lock exists in the code, so none is modelled.
- The `analyze-consultation` function and `useReviewWebhook` are not part of this model. They are an OpenAI call and helpers the code does not define.
- Dates and times are left out: the `timestamp` and `generatedAt` fields, `toLocale*` strings, the sample dates and the `Date.now()` id. The id is the parameter `newId`.
- Recording.RecordingSession.Stop: the recorder's final data event, which fires just before `onstop`, is not modelled. The artifact is the chunks present when `stop` is called.
- Recording.RecordingSession.Start: a second start while a stream is live leaks the old stream. The model keeps only whether a stream is live, so this is not tracked. A still-running interval is tracked, as `leakedIntervals`.
- Asynchrony is not modelled, apart from the split of `handleFinish` into `BeginFinish` and `CompleteFinish`. Every other handler runs to its end in one call.
- React effects are not modelled: the auto-start of recording on mount, the clean-up on unmount and the reload when `consultationId` changes.
- Loaders.ProgressAt: the percentage is an exact `real`, not a double. Rounding of `Math.min((e / total) * 100, 100)` is not modelled.
- The questionnaire's own progress bar (`currentStep / totalSteps`) is not modelled.
- Strings are sequences of code points, not UTF-16 code units. For names with characters outside the Basic Multilingual Plane, `n[0]` in the initials and the whitespace set of `trim` can differ.
- FinalDocument.ErrorText: for a malformed request body, the `error` text of the response is whatever the runtime's exception says. The model records only that the request was malformed.
- FinalDocument.Handle: `selectedSources` is taken as the list of its values. The JSON object's keys are not modelled.
- SimplifiedForm.SimplifiedConsultation.UpdateFormData: the source accepts any string key. The model restricts the key to the form's three fields, because any other key would add a field that nothing reads.
- Dashboard.DashboardPage.ReviewCompleted: requires a selected consultation, because the review, and so its `onComplete`, is only mounted when one is selected.
