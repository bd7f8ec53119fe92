# Voice clone client: a Dafny model

This project models the client-side control code of a voice-clone web app in
Dafny. In the app, the user records or uploads a voice sample and names a
song by a link or a file. The page then drives a five-stage remote pipeline:
upload the voice, submit the song, train, convert, fetch the result. The
result is shown through an object URL.

The model covers these parts:

- **The pipeline hook** (`VoiceCloneHook`). It holds a single state record and
  a ghost log of every state update and every request. The five stages run
  in order and stop at the first failure. `reset` releases the result URL.
- **The page** (`IndexPage`). It covers the start gate (voice, then song,
  then connection), the process button, the consent flags restored from
  local storage, the wizard's completion and the session reset.
- **The voice recorder** (`Recorder`). It covers recording on and off, the
  seconds counter, the chunk buffer, the 32-bin analyser snapshot, the
  `audio/` upload check, the preview URL and its release, and `formatTime`
  together with a parser that reads its output back.
- **The song card** (`Song`). The three YouTube patterns, the
  case-insensitive direct audio link pattern and the file check are written
  as predicates over characters. Each is proved equal to a declarative
  description of the strings it accepts. The card's handlers are modelled
  too.
- **The pipeline card** (`Pipeline`). It covers the six display rows, the
  row status and the progress ramp. Progress is a `real`.
- **The backend badge** (`Backend`), **the setup wizard** (`Setup`) and
  **the consent dialog** (`Consent`).
- **`Platform`** holds the browser pieces the code relies on:
  - an object-URL registry with a ghost set of live URLs and a log of
    revokes, so a double release is visible;
  - local storage;
  - blobs and files.
- **`Text`** holds `toString` on naturals, `padStart`, ASCII case folding
  and JavaScript's `trim`.

Every network call, device prompt and timer reaches the model as a
parameter:

- A `Reply` is `Ok`, `NotOk` or `Thrown(message)`.
- The microphone prompt is `granted`.
- The analyser reading is a sequence of 32 bytes.
- A timer firing is a method call.

Each `await` is one sequential step.

## Model

| member | source | states |
|---|---|---|
| VoiceCloneHook.VoiceClone.constructor | src/hooks/useVoiceClone.ts:16-21 | The hook starts idle at step 0 with no error and no result. |
| VoiceCloneHook.VoiceClone.ProcessVoiceClone | src/hooks/useVoiceClone.ts:75-152 | Before any request, the record is replaced by a fresh running state at step 0. The logged events are exactly `RunEvents`. The final state and the settlement (return or rethrow) are `Final` and `Outcome`. Exactly one new live URL appears, and only when all five replies are ok. Nothing is revoked. The hook invariant is kept. |
| VoiceCloneHook.VoiceClone.RunStages | src/hooks/useVoiceClone.ts:87-149 | Stage i issues its request. On a reply that is not ok it records that stage's error and stops. On the last stage it creates the result URL and finishes at step 5. Otherwise it advances to step i + 1 and runs the rest. The events are `StageEvents`. |
| VoiceCloneHook.VoiceClone.Reset | src/hooks/useVoiceClone.ts:154-164 | It revokes the result URL exactly when one is set, and returns to the initial state. |
| VoiceCloneHook.RunFetches | src/hooks/useVoiceClone.ts:88-117 | A run's requests are exactly the first `IssuedCount` stage requests, in stage order: upload-voice, song-from-link (JSON) or upload-song (multipart), train-voice, convert-song, result. |
| VoiceCloneHook.StageEventsFetches | src/hooks/useVoiceClone.ts:88-117 | From any stage reached after only ok replies, the remaining requests are the stage requests up to the first failure. |
| VoiceCloneHook.StageEventsStates | src/hooks/useVoiceClone.ts:91-142 | From such a stage, the remaining state records are one running state per further step reached, then the final state. |
| VoiceCloneHook.RunStates | src/hooks/useVoiceClone.ts:80-142 | A run's state records are Running(0), then Running(1) … Running(n - 1), then the final state, where n is the number of stages issued. So after k successful stages the step is k. |
| VoiceCloneHook.IssuedIffEarlierOk | src/hooks/useVoiceClone.ts:88-117 | Stage j is issued if and only if every earlier stage replied ok, and it is issued as the j-th request. |
| VoiceCloneHook.FailFast | src/hooks/useVoiceClone.ts:88-148 | A first failure at stage k leaves exactly k + 1 requests, the last one being stage k's. |
| VoiceCloneHook.FinalStep | src/hooks/useVoiceClone.ts:88-127 | A run issues between one and five requests and never ends before the step of its last request. |
| VoiceCloneHook.RunningThenFinal | src/hooks/useVoiceClone.ts:91-112 | Running states for steps 0 to n - 1 followed by a consistent final state have non-decreasing steps and are all consistent. |
| VoiceCloneHook.StepNeverDecreases | src/hooks/useVoiceClone.ts:91-112 | Over the state records of any run, `currentStep` never decreases, and every record satisfies the state invariant. |
| VoiceCloneHook.FinalOutcome | src/hooks/useVoiceClone.ts:116-148 | A run ends at step 5 with a result and no error exactly when all five replies are ok. Otherwise it stops at the first failing stage with that stage's message (or "An unknown error occurred" for a non-Error throw), no result, not processing, and rethrows. |
| VoiceCloneHook.FailureAt | src/hooks/useVoiceClone.ts:135-142 | A failure at stage i after only successes ends as Failed(i, message) and rethrows what the stage threw. |
| VoiceCloneHook.SuccessAll | src/hooks/useVoiceClone.ts:116-127 | Five ok replies end at step 5, not processing, with the fresh result URL, which is returned. |
| VoiceCloneHook.ResetAfterRun | src/hooks/useVoiceClone.ts:154-164 | Reset after a run revokes that run's URL if it succeeded and nothing if it failed. A second reset revokes nothing. |
| VoiceCloneHook.FirstFailure | src/hooks/useVoiceClone.ts:87-149 | The index of the first reply that is not ok: every earlier reply is ok and the reply at that index is not. |
| VoiceCloneHook.StageRequest | src/hooks/useVoiceClone.ts:23-116 | Only the result fetch is a GET. Only the voice upload and a song file upload carry a form, the voice as field "file" named "voice.webm". Only a song link is sent as JSON. |
| VoiceCloneHook.NotOkMessage | src/hooks/useVoiceClone.ts:33-117 | The Error message a stage throws on a response that is not ok is never empty and is never the fallback text. |
| VoiceCloneHook.Final | src/hooks/useVoiceClone.ts:116-142 | The end state is consistent and not processing, and it holds the result URL exactly when every reply was ok. |
| VoiceCloneHook.Outcome | src/hooks/useVoiceClone.ts:134-148 | The run returns the result URL exactly when every reply was ok. Otherwise it rethrows the value the final error message was made from. |
| VoiceCloneHook.StageEvents | src/hooks/useVoiceClone.ts:88-142 | The events from stage i open with stage i's request and number between two and two per remaining stage. |
| VoiceCloneHook.RunEvents | src/hooks/useVoiceClone.ts:80-142 | A run first sets a fresh running state at step 0, then issues the voice upload, and does at most eleven things in all. |
| IndexPage.Index.constructor | src/pages/Index.tsx:16-23 | Consent is shown and not given, the wizard is hidden, the backend is not connected, the API URL is the default, and there are no inputs. |
| IndexPage.Index.RestoreConsent | src/pages/Index.tsx:27-33 | A stored consent of exactly "true" sets `hasConsented` and hides the dialog. Any other stored value changes nothing. |
| IndexPage.Index.HandleConsent | src/pages/Index.tsx:35-43 | Stores "true" under the consent key, sets `hasConsented` and closes the dialog. |
| IndexPage.Index.HandleDecline | src/pages/Index.tsx:45-51 | Changes no state. |
| IndexPage.Index.HandleStartProcessing | src/pages/Index.tsx:53-82 | Stops at the first missing voice, song or connection, in that order, without touching the hook. The pipeline runs, on exactly the page's inputs, exactly when all three are present. |
| IndexPage.StartGate | src/pages/Index.tsx:53-81 | The gate passes if and only if voice, song and connection are all present. Each missing input is reported in check order. |
| IndexPage.ReadyToProcess | src/pages/Index.tsx:90 | Ready exactly when no run is in progress and the gate would pass with a connected backend. |
| IndexPage.ProcessEnabled | src/pages/Index.tsx:196-201 | The process button is enabled if and only if the gate would pass and no run is in progress. |
| IndexPage.Index.HandleReset | src/pages/Index.tsx:84-88 | Resets the hook (revoking its result URL if set) and clears both inputs, so the button is disabled afterwards. |
| IndexPage.Index.WizardComplete | src/pages/Index.tsx:111-114 | Closes the wizard and marks the backend connected. |
| IndexPage.Index.SetShowSetupWizard | src/pages/Index.tsx:107-116 | Opens or closes the wizard. |
| Recorder.VoiceRecorder.constructor | src/components/VoiceRecorder.tsx:14-27 | Idle, counter 0, no preview URL, an empty chunk buffer, and a snapshot of 32 zeros. |
| Recorder.Snapshot | src/components/VoiceRecorder.tsx:77-79 | The first 32 frequency bins (all of them if fewer), each the raw byte value 0..255. A reading of the analyser's 32 bins gives a full 32-entry snapshot. |
| Recorder.VoiceRecorder.Begin | src/components/VoiceRecorder.tsx:39-73 | After a granted prompt: stream, analyser and recorder open, the chunk buffer emptied, recording on, counter 0, timer running. |
| Recorder.VoiceRecorder.StartRecording | src/components/VoiceRecorder.tsx:37-92 | Callable only from the Start button, that is, while not recording and without a voice sample. A denied prompt changes nothing. A granted one starts recording, and the frame loop tests the flag captured before the start, which is false: no snapshot is published and no frame is scheduled. |
| Recorder.VoiceRecorder.StartRecordingLive | src/components/VoiceRecorder.tsx:75-83 | From the same button, with the loop testing the live flag, a granted start publishes the first reading and schedules the next frame. |
| Recorder.VoiceRecorder.UpdateAnalyser | src/components/VoiceRecorder.tsx:75-82 | While the loop's test holds, the reading is published as a 32-entry snapshot and the next frame is scheduled. Otherwise nothing is published and no frame stays scheduled. A pending frame always publishes. |
| Recorder.VoiceRecorder.TimerTick | src/components/VoiceRecorder.tsx:71-73 | Each tick adds exactly one second, so the counter stays positive. |
| Recorder.VoiceRecorder.DataAvailable | src/components/VoiceRecorder.tsx:52-56 | Appends a chunk only if it holds data. The buffer's bytes grow by exactly the chunk's bytes. |
| Recorder.Concat | src/components/VoiceRecorder.tsx:59 | The joined blob is empty exactly when every chunk is. |
| Recorder.ConcatAppend | src/components/VoiceRecorder.tsx:54-59 | Joining two runs of chunks joins their bytes, in order. |
| Recorder.EmptyChunkAddsNothing | src/components/VoiceRecorder.tsx:53-55 | Skipping an empty chunk loses no bytes. |
| Recorder.VoiceRecorder.StopRecording | src/components/VoiceRecorder.tsx:94-102 | Acts only when a recorder exists and recording is on. Then it stops recording, the timer and the frame loop, and resets the snapshot to 32 zeros. |
| Recorder.VoiceRecorder.SetAudioUrl | src/components/VoiceRecorder.tsx:29-35 | Replacing the preview URL revokes the old one (if any) and clears the timer and the frame. Setting the same value does nothing. |
| Recorder.VoiceRecorder.RecorderStopped | src/components/VoiceRecorder.tsx:58-65 | The chunks, joined in order, become one audio/webm blob. It is previewed under a fresh URL and handed to the page. The live URLs gain the fresh one and lose the old preview, which is revoked. The effect cleanup clears the timer and the frame. The stream is closed. |
| Recorder.VoiceRecorder.HandleFileUpload | src/components/VoiceRecorder.tsx:104-124 | Callable only from the Upload button, that is, while not recording and without a voice sample. No file, or a type not starting with "audio/", changes nothing. Otherwise the file becomes the voice sample and the preview under a fresh URL. The live URLs gain the fresh one and lose the old preview, which is revoked. The effect cleanup clears the timer and the frame. |
| Recorder.VoiceRecorder.ClearRecording | src/components/VoiceRecorder.tsx:126-131 | Clears the preview, the voice sample and the counter. The preview URL is revoked twice: once by the handler and once by the effect cleanup. When there was a preview, the cleanup also clears the timer and the frame. |
| Recorder.SecondsField | src/components/VoiceRecorder.tsx:146-147 | For s < 60 the padded seconds field is two digits worth s. |
| Recorder.TimeOf | src/components/VoiceRecorder.tsx:145-147 | m minutes and s < 60 seconds, written as m:ss, read back as m * 60 + s. |
| Recorder.ClockRoundTrip | src/components/VoiceRecorder.tsx:145-147 | The whole minutes and the seconds left over, written as m:ss, read back as the original count. |
| Recorder.FormatTime | src/components/VoiceRecorder.tsx:144-148 | Reading the m:ss text back gives the counter it was made from. |
| Recorder.ParseTimeOnlyFormatted | src/components/VoiceRecorder.tsx:144-148 | Any text that reads back as n is exactly the text formatTime writes for n: minutes without leading zeros, a colon, and seconds below 60 padded to two digits. |
| Text.DecimalCanonical | src/components/VoiceRecorder.tsx:147 | Digit text without leading zeros is the `toString` of its own value. |
| Text.DecimalRoundTrip | src/components/VoiceRecorder.tsx:147 | The decimal text of n reads back as n. |
| Text.PadStart | src/components/VoiceRecorder.tsx:147 | The result is at least n long, ends with the input, and is filled with the pad character in front. |
| Text.TrimEmptyIffBlank | src/components/SongInput.tsx:33 | Trimming leaves nothing exactly when every character is one that `trim` removes. |
| Song.MatchesPatternIff | src/components/SongInput.tsx:21-23 | One pattern matches if and only if the string starts with an optional scheme, an optional "www.", the fixed path and a non-empty run of `[A-Za-z0-9_-]`. |
| Song.PatternsIff | src/components/SongInput.tsx:19-26 | Some YouTube pattern matches exactly when the string starts with one of the 3 x 2 x 3 heads followed by an id run. Trailing text is allowed. |
| Song.IsValidYoutubeUrl | src/components/SongInput.tsx:19-26 | The YouTube check accepts exactly those strings. |
| Song.DirectMatchIff | src/components/SongInput.tsx:29 | The direct pattern with a given scheme and extension matches a folded string exactly when it splits as scheme, non-empty middle without line terminators, a dot and the extension. |
| Song.DirectPatternsIff | src/components/SongInput.tsx:29 | Some scheme and extension match the folded string exactly when it splits as scheme, middle, dot and extension. |
| Song.IsDirectAudioUrl | src/components/SongInput.tsx:29 | The case-insensitive direct-link check accepts exactly the strings that split so after folding. |
| Song.IsValidAudioUrl | src/components/SongInput.tsx:28-30 | A link is valid exactly when it is such a direct link or a YouTube link as described, and a valid link is never blank. |
| Song.YoutubeIsAudio | src/components/SongInput.tsx:28-30 | Every valid YouTube link is a valid audio link. |
| Song.ValidUrlNotBlank | src/components/SongInput.tsx:28-33 | A direct or YouTube link is never blank. |
| Song.CheckUrl | src/components/SongInput.tsx:32-49 | A link is refused as missing exactly when it is blank, and accepted exactly when it is a valid audio link. |
| Song.ExtensionIff | src/components/SongInput.tsx:63 | The folded name ends with a dot and an extension exactly when it is a stem followed by them. |
| Song.HasAudioExtension | src/components/SongInput.tsx:63 | A name has an audio extension exactly when, folded, it is a stem, a dot and one of the five extensions. |
| Song.IsAcceptedSongFile | src/components/SongInput.tsx:62-63 | A file is accepted exactly when its type is one of the six listed audio types or its name has an audio extension. |
| Song.SongInput.constructor | src/components/SongInput.tsx:15 | The link field starts empty. |
| Song.SongInput.SetUrl | src/components/SongInput.tsx:127 | The field holds what was typed. |
| Song.SongInput.HandleUrlSubmit | src/components/SongInput.tsx:32-57 | The verdict is the blank check, then the validity check. Only an accepted link is stored, as typed and untrimmed. Otherwise the song is unchanged. |
| Song.SongInput.HandleFileUpload | src/components/SongInput.tsx:59-79 | No file does nothing. A file with neither a listed type nor an audio name is refused and changes nothing. Otherwise it is stored as the song. |
| Song.SongInput.ClearSong | src/components/SongInput.tsx:81-84 | The song is cleared and the field emptied. |
| Pipeline.StepsTable | src/components/ProcessingPipeline.tsx:19-26 | Six rows with distinct ids. |
| Pipeline.GetStepStatus | src/components/ProcessingPipeline.tsx:47-52 | Error if and only if an error is shown and this is the current row. Completed if and only if the row is before the current one, whatever the error. Processing if and only if this is the current row while processing with no error. Pending otherwise. |
| Pipeline.AtMostOneErrorAndProcessing | src/components/ProcessingPipeline.tsx:47-52 | At most one row shows an error and at most one shows processing. |
| Pipeline.RowsAfterSuccess | src/components/ProcessingPipeline.tsx:47-52 | At step 5 and not processing, rows 0 to 4 are completed and the last row is pending. |
| Pipeline.Target | src/components/ProcessingPipeline.tsx:33-36 | For steps 0 to 4 the target lies strictly between 0 and 75. |
| Pipeline.TargetRange | src/components/ProcessingPipeline.tsx:33-36 | Targets rise with the step. |
| Pipeline.Tick | src/components/ProcessingPipeline.tsx:35-38 | One tick never lowers progress, adds at most one, leaves it alone exactly when the target is reached, and never goes a whole point past the target. |
| Pipeline.Ramp | src/components/ProcessingPipeline.tsx:34-39 | Ticking never lowers progress and adds at most one per tick. It never goes a whole point past a target it started below, and never moves from at or above it. |
| Pipeline.RampMonotone | src/components/ProcessingPipeline.tsx:34-39 | More ticks never give less progress. |
| Pipeline.RampExact | src/components/ProcessingPipeline.tsx:34-39 | While below the target, each tick adds exactly one. |
| Pipeline.PipelineView.constructor | src/components/ProcessingPipeline.tsx:29 | Progress starts at 0 with no interval. |
| Pipeline.PipelineView.Effect | src/components/ProcessingPipeline.tsx:31-45 | While processing, an interval runs towards the step's target. Otherwise, at the last step, progress becomes 100. |
| Pipeline.PipelineView.IntervalTick | src/components/ProcessingPipeline.tsx:34-40 | One firing adds one below the target and otherwise leaves progress unchanged. |
| Pipeline.PipelineView.IntervalTicks | src/components/ProcessingPipeline.tsx:34-40 | n firings give `Ramp` of the old progress, between the old progress and n more. |
| Backend.BackendStatus.constructor | src/components/BackendStatus.tsx:28-29 | Not checking, and the field holds the page's API URL. |
| Backend.BackendStatus.SetTempUrl | src/components/BackendStatus.tsx:125 | The field holds what was typed. |
| Backend.BackendStatus.CheckConnection | src/components/BackendStatus.tsx:31-52 | Logs the probe of `HealthUrl(url)`, the URL followed by "/health". Reports and records connected if and only if the reply is ok. A non-ok reply or a thrown error gives false, and nothing is thrown. |
| Backend.BackendStatus.HandleSaveUrl | src/components/BackendStatus.tsx:54-76 | A blank field changes nothing and probes nothing. Otherwise the probe runs, and the API URL is adopted and stored only on success. `isChecking` ends false. |
| Backend.BackendStatus.Refresh | src/components/BackendStatus.tsx:131 | Probes the field's URL, then clears `isChecking`. |
| Backend.BackendStatus.RestoreOnMount | src/components/BackendStatus.tsx:78-85 | A saved, non-empty URL becomes the API URL and the field's text, and is then probed. Without one, nothing changes. |
| Setup.StepIds | src/components/SetupWizard.tsx:14-83 | Six steps with ids 1 to 6, in order. |
| Setup.WithCompleted | src/components/SetupWizard.tsx:95-98 | Marking keeps the earlier entries in order, adds exactly the id, and keeps the list duplicate-free. |
| Setup.MarkTwice | src/components/SetupWizard.tsx:95-98 | Marking the same id again changes nothing. |
| Setup.NextStep | src/components/SetupWizard.tsx:99-101 | From a step of the table, marking a step id stays in the table. A move always goes to one past the marked id, which is short of the last step. |
| Setup.CompleteAllProps | src/components/SetupWizard.tsx:95-98 | Any run of marks leaves a duplicate-free list of exactly the earlier entries and the marked ids. |
| Setup.SetupWizard.constructor | src/components/SetupWizard.tsx:86-88 | Step 1, nothing completed, not connecting. |
| Setup.SetupWizard.MarkComplete | src/components/SetupWizard.tsx:95-102 | Appends the id if absent, and moves to id + 1 unless the id is the last step. The step stays within 1..6 and the list stays duplicate-free. |
| Setup.SetupWizard.MarkCurrentComplete | src/components/SetupWizard.tsx:277-278 | Before the last step, completes the current step and advances by one. |
| Setup.SetupWizard.Previous | src/components/SetupWizard.tsx:267-268 | Moves back one step, never below 1. At step 1, where the button is disabled, it does nothing. |
| Setup.SetupWizard.TestConnection | src/components/SetupWizard.tsx:104-132 | Probes apiUrl/health. Only an ok reply completes step 6 and schedules the completion. `isConnecting` ends false either way. |
| Setup.SetupWizard.CompletionFires | src/components/SetupWizard.tsx:119 | The scheduled completion closes the wizard and marks the backend connected. |
| Consent.ConsentDialog.constructor | src/components/ConsentDialog.tsx:21-25 | All three agreements start false, so Accept is disabled. |
| Consent.Toggle | src/components/ConsentDialog.tsx:29-31 | A toggle flips its own key and no other. |
| Consent.ToggleTwice | src/components/ConsentDialog.tsx:29-31 | Two toggles of the same key restore the record. |
| Consent.AllAgreed | src/components/ConsentDialog.tsx:27 | All agreed if and only if every key reads true. |
| Consent.UntouchedKey | src/components/ConsentDialog.tsx:29-31 | A key never toggled keeps its value through any run of toggles. |
| Consent.EveryKeyToggled | src/components/ConsentDialog.tsx:21-31 | From the initial record, reaching all agreed needs at least one toggle of each key. |
| Consent.ConsentDialog.HandleCheckboxChange | src/components/ConsentDialog.tsx:29-31 | Flips exactly the given key. |
| Consent.ConsentDialog.Accept | src/components/ConsentDialog.tsx:110-113 | Only when all three are agreed: the page stores the consent and closes the dialog. |
| Platform.UrlRegistry.Create | src/components/VoiceRecorder.tsx:60 | `URL.createObjectURL`: a fresh URL, never live before, becomes live; earlier revokes are kept. |
| Platform.UrlRegistry.Revoke | src/components/VoiceRecorder.tsx:127 | `URL.revokeObjectURL`: the URL is no longer live and the revoke is logged, even when it was already revoked. |

## Left out

- Toasts, JSX rendering, icons and styling. Where a handler only shows a notification, the model changes no state.
- Reading response bodies. `uploadVoice` and both branches of `submitSong` return `response.json()` (src/hooks/useVoiceClone.ts:37, 55, 69), the result stage reads `blob()` (:119), and the wizard's `testConnection` reads `json()` (src/components/SetupWizard.tsx:113). A body that fails to read after an ok reply would end the run as `Failed` at that step, or fail the wizard's probe. The model treats every ok reply as success.
- The 5-second abort timeout of the wizard's probe. A timeout is one way a reply ends as `Thrown`.
- Scheduling by `setInterval`, `requestAnimationFrame` and `setTimeout`. Each firing is a method call, and effects run synchronously after the state change that triggers them. React's batching of updates, and the interleaving of a probe with a running pipeline, are not modelled.
- The recorder's unmount cleanup, `togglePlayback` and `isPlaying`. These drive the media element.
- The song card's input-mode toggle and the wizard's copy-to-clipboard.
- `ResultPlayer`, `Header` and the backend service are not part of this model.
- The hook's five stage blocks share one shape. `VoiceCloneHook.VoiceClone.RunStages` runs block i and then recurses on the rest, instead of five straight-line copies.
- Progress is an exact `real`, not a floating-point number.
- `Recorder.VoiceRecorder.StartRecording`, `Recorder.VoiceRecorder.StartRecordingLive`, `Recorder.VoiceRecorder.HandleFileUpload`, `Setup.SetupWizard.MarkComplete`, `Setup.SetupWizard.MarkCurrentComplete` and `Consent.ConsentDialog.Accept` have preconditions. These stand for the UI gating that makes each reachable:
  - the Start button is rendered only while not recording and is disabled once a voice sample is set (`StartEnabled`, VoiceRecorder.tsx lines 193-198), so a start with a voice sample already set cannot happen;
  - the Upload button is disabled while recording or once a voice sample is set (`UploadEnabled`, VoiceRecorder.tsx line 219);
  - `MarkComplete` takes an id from the step table, and "Mark Complete & Next" is shown only before step 6;
  - Accept is disabled until all three boxes are ticked.
- The analyser reading: `fftSize` is 64, so every reading has exactly 32 bins, and the recorder's methods take readings of that length.
- Snapshot values: a published snapshot holds the raw bytes 0..255 of the 32 bins, as the code does. It is not normalised to 0..100. Its length is always 32: the recorder invariant requires it, and every method keeps it.
- Reset during a run: `reset` has no guard against being called while a run is in progress. `VoiceCloneHook.VoiceClone.ProcessVoiceClone` is one atomic method, so a reset between two of its awaits is not modelled, like the probe interleaving above.
- Releasing the preview URL: the code can release the same URL twice, and the model records both revokes (see `Recorder.VoiceRecorder.ClearRecording`) rather than enforcing a single release.
- The 100% progress branch: the pipeline card fills the bar when not processing at step 5. Step 5 is only reached with a result, and with a result the page shows the player instead of the card, so the full bar is never on screen. The model states the effect as written.
- Row labels: the pipeline card's six rows do not correspond one to one to the hook's five stages. After a successful run the last row, "Exporting", stays pending (`Pipeline.RowsAfterSuccess`).

## Findings

| source | as written | input that shows it | evidently intended | confidence | as-written member | corrected member |
|---|---|---|---|---|---|---|
| src/components/VoiceRecorder.tsx:76 | The frame loop tests the `isRecording` value captured when `startRecording` ran. The start button is only offered while idle, so that value is false. | Start a recording from idle with the microphone granted: no snapshot is published and no frame is scheduled, so the waveform stays flat for the whole recording. | The loop tests the live recording flag, so each frame publishes the reading while recording. | not executed | Recorder.VoiceRecorder.StartRecording | Recorder.VoiceRecorder.StartRecordingLive |
