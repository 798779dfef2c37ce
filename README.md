# letmescream — a Dafny model of the scream pipeline

letmescream is a browser app. The user screams into the microphone, watches a live visualisation, and gets a result screen for the scream. They can sign in by screaming, save recordings to a library and subscribe to a plan. This project models its core in Dafny:

- **Recorder** (`audio_recorder.dfy`): the audio-recorder hook.
  - It turns each analyser frame (128 frequency bytes) into a filtered frame for the visualiser and a scalar intensity, called the "pitch" in the code.
  - It collects the encoder's chunks into a recording.
  - It releases every browser resource on stop.
- **Visualizer** (`audio_visualizer.dfy`): the visualiser's smoothing buffer, which persists across animation frames, and the integer bounds of the active picture (bars and rings).
- **Session** (`scream_session.dfy`): the scream session screen.
  - A start/stop button drives the recorder.
  - It keeps a running maximum of the intensity and a one-second counter.
  - It holds the small pure helpers that render these.
- **Auth** (`voice_auth.dfy`): the voice sign-in meter.
  - A progress counter goes up on loud frames and down on quiet ones; at 100 the user is signed in.
  - It includes the 30-second timeouts and the timer-driven fallback for users without a microphone.
- **Shell** (`app.dfy`): the application shell.
  - Screen navigation.
  - The result categories and messages.
  - The gates in front of the library and of saving.
  - Saving the last recording.
- **Library** (`scream_library.dfy`): the saved-screams library.
  - Playback with at most one element playing.
  - Renaming with JavaScript's `trim`.
  - The duration text and the download file name.
- **Catalogue** (`stripe_config.dfy`): the constant table of subscription plans and its two lookups.
- **TimeFormat** (`time_format.dfy`) and **Options** (`options.dfy`): the shared `m:ss` clock text with its parser, and the optional type.

## How state is modelled

State that React components and hooks update is modelled as classes whose methods modify fields:

- React state and refs are fields.
- Each event handler is a method.
- The browser's events are methods the caller invokes: an animation frame (`Tick`), an encoder delivery (`OnDataAvailable`), the encoder's `stop` event (`OnStop`), a timer firing.
- A `useEffect` whose dependencies a handler changes is run as an explicit method call at the end of that handler.

External services are parameters: microphone permission, encoder support, the sign-in call, the save and rename calls, the subscription state. Each request sent to an external store is appended to a log field, so its arguments can be stated.

## Model

| member | source | states |
|---|---|---|
| Recorder.CalculatePitch | src/hooks/useAudioRecorder.ts:19-40 | The loop's running sum gives exactly `PitchOf(frame)`: 0 when the mean bin value is below 10, otherwise twice the mean capped at 255. |
| Recorder.PitchSilentIff | src/hooks/useAudioRecorder.ts:31-36 | A frame reads 0 exactly when its bins sum to less than 10 per bin. |
| Recorder.PitchRange | src/hooks/useAudioRecorder.ts:31-39 | Every intensity is in [0, 255], and any non-zero intensity is at least 20 (twice the noise floor). |
| Recorder.PitchMonotone | src/hooks/useAudioRecorder.ts:31-39 | A frame with a larger mean never reads a lower intensity. |
| Recorder.SingleSpikeIsSilent | src/hooks/useAudioRecorder.ts:31-36 | One saturated bin among 127 zeros reads 0: the intensity follows average energy, not a lone peak. |
| Recorder.SaturatedFrameIsMax | src/hooks/useAudioRecorder.ts:39 | A frame with every bin at 255 reads exactly 255. |
| Recorder.ProcessAudioData | src/hooks/useAudioRecorder.ts:42-55 | Same length as the input. Above a mean of 15, every bin is amplified: it never decreases, and it saturates exactly from 170. Otherwise every bin is at most halved, and blanked exactly when at most 10. |
| Recorder.FiltersAreMonotone | src/hooks/useAudioRecorder.ts:50-53 | Both per-bin filters keep the order of bin values. |
| Recorder.Collected | src/hooks/useAudioRecorder.ts:77-81 | The kept chunks are no more than the deliveries, and every kept chunk is non-empty. |
| Recorder.CollectedAppend | src/hooks/useAudioRecorder.ts:77-81 | Collecting two runs of deliveries is collecting each in turn, so arrival order is kept. |
| Recorder.CollectedOne | src/hooks/useAudioRecorder.ts:78-80 | A chunk with data is kept; an empty one is dropped. |
| Recorder.AudioRecorder.constructor | src/hooks/useAudioRecorder.ts:4-13 | Starts inactive, with intensity 0, no recording, no chunks and no browser resources. |
| Recorder.AudioRecorder.Tick | src/hooks/useAudioRecorder.ts:110-124 | While the analyser is held, publishes `ProcessAudioData(frame)` and `PitchOf(frame)`. Once it is released, changes nothing. |
| Recorder.AudioRecorder.StartRecording | src/hooks/useAudioRecorder.ts:57-133 | Succeeds exactly when the microphone and the encoder are available. A refused microphone changes nothing. A refused encoder leaves the stream held and the chunks emptied. Success starts recording with no chunks and processes the first frame at once. `Valid` is kept. |
| Recorder.AudioRecorder.OnDataAvailable | src/hooks/useAudioRecorder.ts:77-81 | Appends exactly `Collected([c])` to the chunks; nothing else changes. |
| Recorder.AudioRecorder.OnStop | src/hooks/useAudioRecorder.ts:83-86 | The recording becomes the chunk list as it stands, and one owed `stop` event is consumed. |
| Recorder.AudioRecorder.StopRecording | src/hooks/useAudioRecorder.ts:135-160 | Releases every resource and clears the published state. Only a recording encoder is stopped, and it then owes one `stop` event. Chunks and the recording are untouched. |
| Recorder.AudioRecorder.ClearRecording | src/hooks/useAudioRecorder.ts:162-165 | Forgets the recording and the chunks; nothing else changes. |
| Recorder.CaptureRecording | src/hooks/useAudioRecorder.ts:69-89 | Start (which always succeeds here), deliveries while recording, stop, the remaining data the encoder hands over when stopped, then the `stop` event: the recording is exactly the non-empty chunks of both runs, in arrival order. |
| Recorder.DeliverChunks | src/hooks/useAudioRecorder.ts:77-81 | A run of encoder deliveries appends exactly `Collected(deliveries)` to the chunks, whether the encoder is recording or stopping; nothing else changes. |
| Visualizer.AudioVisualizer.constructor | src/components/AudioVisualizer.tsx:14 | The smoothing buffer starts empty, as the ref's initial value. |
| Visualizer.AudioVisualizer.SmoothData | src/components/AudioVisualizer.tsx:59-75 | The in-place loop leaves the buffer equal to `Smoothed(old buffer, frame, f)` and returns it. |
| Visualizer.SmoothedLength | src/components/AudioVisualizer.tsx:59-75 | The buffer grows to the longer of itself and the frame, and never shrinks. |
| Visualizer.BlendBetween | src/components/AudioVisualizer.tsx:68 | With a factor in [0, 1], a blended bin lies between its old and its new value. |
| Visualizer.SmoothedStaysWithin | src/components/AudioVisualizer.tsx:65-72 | A buffer and a frame inside a range (such as the byte range) give a buffer inside that range. |
| Visualizer.BlendContracts | src/components/AudioVisualizer.tsx:68 | Against a fixed target, one blend scales the signed distance by exactly the factor. |
| Visualizer.ConstantInputConverges | src/components/AudioVisualizer.tsx:59-75 | After n calls with the same frame, each bin's signed distance from the frame is `f^n` times the initial one. |
| Visualizer.ConstantInputGetsCloser | src/components/AudioVisualizer.tsx:68 | With a factor in [0, 1), every call strictly reduces the distance of a bin that differs from the frame. |
| Visualizer.DrawSmoothingWithinOnePercent | src/components/AudioVisualizer.tsx:135 | With the drawing factor 0.8, 21 calls leave less than one per cent of the initial distance. |
| Visualizer.BarCount | src/components/AudioVisualizer.tsx:132 | The bar count is the frame length capped at 64. |
| Visualizer.RingCount | src/components/AudioVisualizer.tsx:206-233 | Between 2 and 5 rings: exactly 5 from a pitch of 75, and exactly 2 below 25. |
| Visualizer.AudioVisualizer.Draw | src/components/AudioVisualizer.tsx:32-47 | When inactive or given an empty frame: the idle picture, with the buffer untouched. Otherwise the buffer is smoothed with 0.8, and the picture holds the bar count, the ring count and the first `BarCount` smoothed levels. |
| TimeFormat.MinSecRoundTrip | src/components/ScreamSession.tsx:84-88 | The `m:ss` text reads back as the same number of seconds: minutes, a colon, and two seconds digits below 60. |
| TimeFormat.DecimalRoundTrip | src/components/ScreamSession.tsx:86-87 | The decimal digits of a whole number read back as that number. |
| TimeFormat.PadStart | src/components/ScreamSession.tsx:87 | A string shorter than the width gets exactly enough fill characters in front; a longer one is unchanged. |
| TimeFormat.UnderAMinute | src/components/ScreamSession.tsx:84-88 | Under a minute the text is four characters starting with `0:`. |
| Session.FormatTime | src/components/ScreamSession.tsx:84-88 | The session clock reads back as its seconds, and is `0:ss` under a minute. |
| Session.IntensityColor | src/components/ScreamSession.tsx:90-96 | Blue exactly below 15. Pink exactly in [30, 50). Purple exactly in [15, 30) or from 50. |
| Session.IntensityBarWidth | src/components/ScreamSession.tsx:151 | At most 100 per cent, and full exactly from 50. For a non-negative intensity up to 50 the width is twice the intensity. |
| Session.FeedbackPanel | src/components/ScreamSession.tsx:217-237 | Exactly one panel while recording (praise above 5, encouragement at or below 5), and none otherwise. |
| Session.ScreamSession.constructor | src/components/ScreamSession.tsx:12-17 | Not recording, zero statistics, no timer, a fresh recorder. |
| Session.ScreamSession.TrackMaxPitch | src/components/ScreamSession.tsx:28-33 | The maximum moves only to a strictly larger intensity, so it never drops and always covers the current intensity. |
| Session.ScreamSession.OnFrame | src/components/ScreamSession.tsx:28-33 | A frame sets the intensity to `PitchOf(frame)` while the analyser is held. The maximum follows it, and `Valid` (the maximum covers the current intensity while recording) is kept. |
| Session.ScreamSession.OnChunk | src/hooks/useAudioRecorder.ts:77-81 | A delivery during a session adds exactly its collected form to the hook's chunks. |
| Session.ScreamSession.OnEncoderStop | src/hooks/useAudioRecorder.ts:83-86 | The encoder's `stop` event sets the hook's recording to the chunks collected. |
| Session.ScreamSession.TimerEffect | src/components/ScreamSession.tsx:35-52 | The one-second interval exists exactly while recording. |
| Session.ScreamSession.SecondElapsed | src/components/ScreamSession.tsx:38-40 | An interval tick adds exactly one second while the interval exists, and nothing otherwise. |
| Session.ScreamSession.Unmount | src/components/ScreamSession.tsx:76-82 | Unmounting clears the interval and leaves the statistics alone. |
| Session.ScreamSession.HandleStartRecording | src/components/ScreamSession.tsx:54-74 | Stop: report the maximum, the seconds and the hook's recording as they stand, then leave the recorder owing a `stop` event. Start: on success, the statistics restart from the first frame and the timer runs. On failure nothing of the session changes. |
| Session.ScreamSession.StopAwaitingRecording | src/components/ScreamSession.tsx:54-61 | Corrected stop: takes the remaining data the encoder hands over when stopped, then waits for its `stop` event. The report carries the chunks collected before the stop followed by the collected final deliveries. |
| Session.FreshSessionReportsNoBlob | src/components/ScreamSession.tsx:54-61 | As written, a fresh session started, fed any deliveries and stopped reports no recording. |
| Session.FreshSessionReportsRecording | src/components/ScreamSession.tsx:54-61 | With the corrected stop, the same session reports exactly the non-empty deliveries, those made while recording and those handed over at the stop, in order. |
| Auth.NextProgress | src/components/VoiceAuth.tsx:59-72 | For a non-negative counter, one effect run keeps it non-negative and adds at most 2. It rises exactly when the intensity is above the threshold. It falls exactly when the intensity is below half the threshold and the counter is positive. |
| Auth.ProgressedNonNegative | src/components/VoiceAuth.tsx:67-70 | The counter never goes negative over any run of intensities. |
| Auth.ProgressedMonotone | src/components/VoiceAuth.tsx:59-72 | More progress before a run means at least as much after it. |
| Auth.ProgressedAppend | src/components/VoiceAuth.tsx:59-72 | Two runs of effect calls compose. |
| Auth.LoudRunAdds | src/components/VoiceAuth.tsx:60-62 | Each value above the threshold adds exactly 2. |
| Auth.QuietRunDecays | src/components/VoiceAuth.tsx:67-70 | Each value below half the threshold takes off 0.5, stopping at 0. |
| Auth.NeutralRunKeeps | src/components/VoiceAuth.tsx:59-72 | Values from half the threshold up to the threshold leave the counter alone. |
| Auth.FiftyLoudValuesSignIn | src/components/VoiceAuth.tsx:60-66 | From 0, a run of loud effect runs reaches 100 exactly when it has at least 50 runs. |
| Auth.EffectRuns | src/components/VoiceAuth.tsx:59-72 | The effect runs at most once per frame. The first run's intensity differs from the one before the frames, and no two consecutive runs have the same intensity. |
| Auth.EffectRunsSnoc | src/components/VoiceAuth.tsx:72 | One more frame adds an effect run exactly when its intensity differs from the one before. |
| Auth.EffectRunsAppend | src/components/VoiceAuth.tsx:72 | The runs of two consecutive stretches of frames compose; the second stretch starts from the intensity the first ends on. |
| Auth.EffectRunsOfConstant | src/components/VoiceAuth.tsx:72 | A stretch of frames at one intensity is one effect run when the intensity before differs, and none when it is the same. |
| Auth.ListenToFrames | src/components/VoiceAuth.tsx:59-72 | While listening, any sequence of frames leaves the counter at the fold of `NextProgress` over `EffectRuns` of the frames' intensities, with the last frame's intensity current. The meter still listens exactly when every prefix of the fold stays below 100; otherwise it has stopped after exactly one sign-in attempt. |
| Auth.SteadySilenceDecaysOnce | src/components/VoiceAuth.tsx:67-70 | As written: after a sound, any number of silent frames lower the counter once, by 0.5. |
| Auth.SilenceAfterSoundDecaysOnce | src/components/VoiceAuth.tsx:67-70 | As written, on the class: a listening meter fed any number of silent frames after a sound keeps listening at `max(0, p - 0.5)`. |
| Auth.ScreamThenSilenceAsWritten | src/components/VoiceAuth.tsx:59-72 | As written, at threshold 40 after a silent room, thirty frames at 50 then ten at 0 are two effect runs and leave 1.5. |
| Auth.VoiceAuth.OnFrameEachRun | src/components/VoiceAuth.tsx:59-72 | Corrected meter: the effect runs on every frame. The counter moves to `NextProgress` of `PitchOf(frame)`, or the sign-in starts. |
| Auth.ListenToFramesEachRun | src/components/VoiceAuth.tsx:59-72 | Corrected meter: while listening, the counter is the fold of `NextProgress` over every frame's intensity. The meter still listens exactly when every prefix stays below 100; otherwise it has stopped after exactly one sign-in attempt. |
| Auth.SilenceDrainsMeter | src/components/VoiceAuth.tsx:67-70 | Corrected meter: n silent frames take the counter to `max(0, p - 0.5 n)`, and the meter keeps listening. |
| Auth.ScreamThenSilence | src/components/VoiceAuth.tsx:59-72 | Corrected meter, where every frame runs the effect: at threshold 40, thirty frames at 50 then ten at 0 leave the counter at 55. |
| Auth.SilenceEmptiesSixty | src/components/VoiceAuth.tsx:67-70 | Corrected meter: silence empties a counter of 60 exactly after 120 frames. |
| Auth.IntensityNormalized | src/components/VoiceAuth.tsx:132 | At most 1, and exactly 1 from 60. Up to 60 it is the intensity divided by 60. |
| Auth.VoiceAuth.constructor | src/components/VoiceAuth.tsx:38-48 | Not listening, threshold 40, microphone allowed, progress 0. |
| Auth.VoiceAuth.ResetAuth | src/components/VoiceAuth.tsx:87-92 | Counter and display to 0, listening and recording stopped, the invariant restored. |
| Auth.VoiceAuth.HandleAuthSuccess | src/components/VoiceAuth.tsx:74-85 | Stops listening and recording and makes one sign-in attempt. A failed attempt resets the meter; a successful one keeps the progress shown. |
| Auth.VoiceAuth.ProgressEffect | src/components/VoiceAuth.tsx:59-72 | While listening, the counter moves to `NextProgress`, or at 100 the sign-in starts. The display shows the counter capped at 100. Not listening: nothing changes. |
| Auth.VoiceAuth.OnFrame | src/components/VoiceAuth.tsx:59-72 | A frame whose intensity differs from the last moves the counter by `NextProgress` of `PitchOf(frame)`, or signs in. A repeated intensity changes nothing. While listening, the new intensity is `PitchOf(frame)`. The threshold, the microphone flag, the timeouts and the intervals stay the same. |
| Auth.VoiceAuth.HandleStartListening | src/components/VoiceAuth.tsx:94-109 | Success: listen from 0 with one more 30-second timeout pending; the effect then counts the first frame, so the counter is `NextProgress(0, PitchOf(firstFrame))`. Failure: switch to the fallback, with progress unchanged. |
| Auth.VoiceAuth.TimeoutFires | src/components/VoiceAuth.tsx:102-104 | A pending timeout firing resets the meter, whichever attempt started it. |
| Auth.VoiceAuth.SetThreshold | src/components/VoiceAuth.tsx:311-316 | The slider sets a threshold in [20, 60]. While listening, a new value re-runs the effect: the counter moves by `NextProgress` under the new threshold, or the sign-in starts. The same value, or not listening, leaves the counter alone. |
| Auth.VoiceAuth.HandleFakeScream | src/components/VoiceAuth.tsx:111-130 | The fallback resets the counter and starts one more interval. |
| Auth.VoiceAuth.FallbackTick | src/components/VoiceAuth.tsx:121-129 | A tick adds 5 and shows it. At 100 its interval clears and one sign-in attempt starts. |
| Auth.RunFakeScream | src/components/VoiceAuth.tsx:111-130 | A fallback run ends after exactly 20 ticks with one sign-in attempt and no interval left. On success the counter is 100; on failure it is 0. |
| Auth.StaleTimeoutEndsLaterAttempt | src/components/VoiceAuth.tsx:94-104 | Start, cancel with the button, start again: the first attempt's uncleared timeout ends the second attempt. |
| Shell.PitchCategory | src/App.tsx:152-158 | Five buckets split at 15, 30, 40 and 50, each stated as an if-and-only-if. |
| Shell.AssumptionMatchesCategory | src/App.tsx:144-158 | The message chain and the category chain always agree, and the message alone determines the bucket. |
| Shell.LabelNamesCategory | src/App.tsx:152-158 | The category text shown for a peak is the source's label for its bucket, and no two buckets share a label. |
| Shell.CategoryMonotone | src/App.tsx:152-158 | A louder peak never falls in a quieter bucket. |
| Shell.IntensityColorFollowsCategory | src/App.tsx:152-158 | The live colour is blue exactly for a whisper, and pink exactly for loud and very loud. |
| Shell.MarkerOffset | src/App.tsx:283 | The result marker sits at no more than 100 per cent, and at exactly 100 from a peak of 60. Below that it is the peak over 60 as a percentage, and it is never negative for a non-negative peak. |
| Shell.App.constructor | src/App.tsx:20-25 | Landing screen, no result, no recording, no dialog. |
| Shell.App.HandleScreamStart | src/App.tsx:71-73 | Shows the session screen and changes nothing else. |
| Shell.App.HandleScreamEnd | src/App.tsx:75-81 | Keeps the peak, the duration and the recording exactly as reported, and shows the result. |
| Shell.App.HandleReset | src/App.tsx:91-97 | Back to the landing screen with the result cleared. |
| Shell.App.HandleProfileClick | src/App.tsx:99-110 | The library exactly for a signed-in subscriber; the paywall otherwise. |
| Shell.App.HandleSaveScream | src/App.tsx:117-129 | A signed-in subscriber gets the naming dialog. Anyone else gets the paywall, with the dialog untouched. |
| Shell.App.HandleSaveScreamConfirm | src/App.tsx:131-142 | Nothing without a recording or a user. Otherwise exactly one save request with the recording, name, duration and peak. On success the dialog closes and the recording is dropped; a failed save changes nothing else. |
| Shell.AsWrittenScreamCannotBeSaved | src/App.tsx:318 | A scream stopped by the session as written never shows the save button, whoever is signed in. |
| Shell.WaitingStopScreamIsSaved | src/App.tsx:131-142 | With the corrected stop, a signed-in subscriber's save sends exactly the non-empty chunks, including those handed over at the stop, to the store. |
| Library.TrimStart | src/components/ScreamLibrary.tsx:66-69 | The result is a suffix that does not start with a trimmable character, and everything dropped was trimmable. |
| Library.TrimEnd | src/components/ScreamLibrary.tsx:66-69 | The result is a prefix that does not end with a trimmable character, and everything dropped was trimmable. |
| Library.TrimEmptyIff | src/components/ScreamLibrary.tsx:66 | A name trims to nothing exactly when every character is white space or a line terminator. |
| Library.TrimIdempotent | src/components/ScreamLibrary.tsx:69 | A trimmed name has no trimmable ends, so trimming it again changes nothing. |
| Library.FormatDuration | src/components/ScreamLibrary.tsx:94-98 | The duration text reads back as the same number of seconds. |
| Library.DownloadNameRoundTrip | src/components/ScreamLibrary.tsx:80 | The download name is the scream's name followed by `.webm`, and dropping the extension gives the name back. |
| Library.ScreamLibrary.constructor | src/components/ScreamLibrary.tsx:18-21 | Nothing playing, nothing being edited, no cached elements. |
| Library.ScreamLibrary.HandlePlay | src/components/ScreamLibrary.tsx:23-48 | On the playing scream: pause it and select nothing. On another: pause the playing one, cache an element for this one if there is none, and play and select it. Cached sources are never replaced, and exactly the selected element plays. |
| Library.ScreamLibrary.OnEnded | src/components/ScreamLibrary.tsx:41 | The playing element ending selects nothing, and nothing plays. |
| Library.ScreamLibrary.HandleEditName | src/components/ScreamLibrary.tsx:60-63 | Edits this scream, starting from its current name. |
| Library.ScreamLibrary.SetEditName | src/components/ScreamLibrary.tsx:199 | The edit field takes the typed text. |
| Library.ScreamLibrary.CancelEdit | src/components/ScreamLibrary.tsx:211 | Ends the edit without a request. |
| Library.ScreamLibrary.HandleSaveName | src/components/ScreamLibrary.tsx:65-75 | Nothing when no scream is being edited or the name trims to nothing. Otherwise exactly one rename request with the trimmed name; on success the edit ends, and on failure it stays. |
| Catalogue.FindFirst | src/stripe-config.ts:61-67 | The first matching index, or nothing exactly when no product matches. |
| Catalogue.GetProductById | src/stripe-config.ts:61-63 | A product from the table with this id, or nothing exactly when none has it. |
| Catalogue.GetProductByPriceId | src/stripe-config.ts:65-67 | A product from the table with this price id, or nothing exactly when none has it. |
| Catalogue.KeysDistinct | src/stripe-config.ts:12-59 | No two plans share an id or a price id. |
| Catalogue.LookupFindsOwnEntry | src/stripe-config.ts:61-67 | Looking a plan up by its own id or price id finds that plan. |
| Catalogue.PopularIsDefault | src/stripe-config.ts:27-42 | Exactly one plan is marked popular: Premium, the second entry, which is the paywall's default. |
| Catalogue.SubscriptionsInPriceOrder | src/stripe-config.ts:12-59 | Every plan is a subscription, and prices rise strictly through the table. |

## Left out

- Browser audio I/O: `getUserMedia`, `MediaRecorder`, `AudioContext` and the analyser are booleans plus explicit events. Audio encoding and the FFT are not modelled: frames and chunks are inputs.
- Canvas drawing: the visualiser's shapes, gradients, time-based wobble, idle animation and resize handling are left out. Only the buffer, the bar count and the ring count are modelled.
- Floating point: intensities, smoothing and progress use exact reals, so IEEE rounding is not modelled. The byte stores of `processAudioData` are modelled as truncation to an integer.
- Recorder.PitchOf: requires a non-empty frame. An empty frame would give NaN, but the analyser always yields 128 bins, so the model never passes one.
- The `maxValue` that `calculatePitch` computes is never used, so it is not modelled.
- Timers: timeouts and intervals are pending counts or flags fired by explicit methods; their durations (1 s, 100 ms, 30 s, 3 s, 2 s) are not modelled.
- Session: the instructions overlay that hides after 3 seconds, and the alert and console output on a failed start, are left out.
- Session.ScreamSession.Unmount: the recorder keeps running after unmount, because the hook has no cleanup of its own. Microphone tracks held past unmount are not modelled.
- Auth: the `user` effect that shows the success screen and closes after 2 seconds is left out, because the signed-in user comes from an external provider. The fallback's sound effect, the sphere animation and its colours are left out.
- Auth.VoiceAuth.OnFrame: React skips an effect run when the intensity value is unchanged. Batching of renders between frames is not modelled beyond that.
- Shell: the URL and hash effects, `handleChatStart`, `handleSoundsStart`, `handleSubscribe` and the dialog close callbacks are left out. They are plain screen switches or depend on the browser location.
- Shell: the chat, calming sounds, landing page, background and cursor effects are UI-only components, so they are left out. So are the authentication, subscription and storage wrappers, which are calls into an external backend.
- Library: `handleDelete` is left out because it depends on a confirmation dialog and the external store. `formatDate` and `formatFileSize` are left out because they are locale and floating-point formatting.
- Library.ScreamLibrary.HandlePlay: requires a non-empty id, as the store always gives one. The source treats an empty id as "nothing playing", which the model does not cover.
- Library: audio elements are modelled as values (source and playing flag) in a map, not as shared objects. `play()`'s promise and the aliasing of one element between renders are not modelled.
- `smoothData`'s default factor 0.7 is not modelled: its only call passes 0.8 explicitly.
- Visualizer.AudioVisualizer.SmoothData: returns the buffer as a value. In the source the returned array aliases the ref, and that aliasing is not modelled.
- Library.FormatDuration: takes whole seconds. A fractional duration from the store would print a fraction in the source.
- `startRecording` is not all-or-nothing: when the encoder cannot be created, the stream stays held and the chunk list has already been emptied. The model keeps that partial state.
- The auth counter is not clamped at 100: only the displayed value is. The model keeps the unclamped counter.

## Findings

| source | as written | input that shows it | evidently intended | confidence | as-written member | corrected member |
|---|---|---|---|---|---|---|
| src/components/ScreamSession.tsx:54-61 | The stop handler calls `stopRecording()` and at once reports the hook's `recordedBlob`. The encoder's `stop` event sets the blob only later (src/hooks/useAudioRecorder.ts:83-86), so a fresh session's report never has a recording. The save button (src/App.tsx:318) therefore never appears. | Mount, start with the microphone granted, deliver any chunks (for example one 1-byte chunk), press stop: the report's blob is absent. | The report carries the recording just made, so a signed-in subscriber can save it. | not executed | Session.FreshSessionReportsNoBlob | Session.FreshSessionReportsRecording |
| src/components/VoiceAuth.tsx:59-72 | The decay branch, commented "slowly decrease progress if not screaming", is in an effect that re-runs only when the intensity changes (dependency list at line 72). Silence reads exactly 0 on every frame (src/hooks/useAudioRecorder.ts:34-36), so steady silence lowers the counter once, by 0.5, and then never again. At the default threshold 40 no non-zero intensity is below 20, so quiet never drains the meter. | Listening with the counter at 60 and the last intensity 50, feed any number of silent frames: the counter stays at 59.5 until the 30-second timeout. | The counter keeps falling by 0.5 per frame while the user is quiet, down to 0. | not executed | Auth.SilenceAfterSoundDecaysOnce | Auth.SilenceDrainsMeter |
