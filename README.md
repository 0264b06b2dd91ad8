# Recording-session bookkeeping of react-visual-audio-recorder

This project models the part of react-visual-audio-recorder that keeps track of a
recording session. That covers:

- the encoded chunks a MediaRecorder delivers, kept in a buffer;
- the start time;
- the stream, recorder, audio context and analyser handles;
- the "blob object" artifacts handed to the host at pause, stop and reset;
- the callbacks that carry those artifacts.

It models the three implementations of that bookkeeping in the repository, plus the two React widgets built on the hook:

- `useMicrophoneRecorder` (module `UseMicrophoneRecorder`), the React hook. Its React state and `chunks` ref are held in the fields of `MicrophoneHook`.
- `src/modules/MicrophoneRecorder.ts` (module `ModulesMicrophoneRecorder`), a class whose stop event runs whichever action `actionsOnStop` points at.
- `src/libs/MicrophoneRecorder.ts` (module `LibsMicrophoneRecorder`), a class with separate onPause/onStop callbacks and a `recordingState` field.
- `ReactAudioRecorder` and `ReactVisualAudioRecorder` (modules `ReactAudioRecorder` and `ReactVisualAudioRecorder`). These widgets negotiate a container, fill in prop defaults, drive one hook instance and report a status derived from two booleans.

Each implementation has two layers:

- A value-level state datatype whose member functions are the source's operations, one step each. The properties are lemmas about these functions.
- A `class` whose fields are the source's fields. Each method changes the fields step by step and is proved to leave exactly the state the matching function names.

Side effects are made visible through two logs kept in the state:

- `emitted`: the host callbacks invoked, in order.
- `calls`: the calls made on browser objects, in order.

Platform events are the model's inputs:

- a delivered chunk;
- the recorder's stop, pause, start and resume events;
- the recorder ending on its own, because its stream's tracks ended (the stream is then no longer active) or after an error;
- the outcome of getUserMedia;
- `Date.now()`.

The MediaRecorder rule that the empty MIME type is always supported comes from the MediaStream Recording specification, section "isTypeSupported". So does the rule that `start()` throws NotSupportedError when the recorder's stream is no longer active. The label a blob gets follows the Blob constructor of the File API: a type with a character outside U+0020..U+007E becomes "", any other is converted to ASCII lowercase.

## Model

| member | source | states |
|---|---|---|
| Media.PayloadObjectCarriesChunks | src/useMicrophoneRecorder.ts:103-119 | the artifact of a flush holds exactly the buffered chunks in order. Its label is canonical: the options' MIME type when that is already canonical, "" when it is undefined. Its URL leads to the same blob; start and stop times are the ones given |
| Media.NormalizeType | src/useMicrophoneRecorder.ts:105 | the Blob constructor's label is always canonical (printable, no upper-case letter), keeps a canonical type unchanged, and is either "" or as long as the given type |
| Media.NormalizeTypeLowers | src/useMicrophoneRecorder.ts:105 | a printable type is lowered character by character; a type with a non-printable character becomes "" |
| Media.NormalizeTypeIdempotent | src/useMicrophoneRecorder.ts:105 | normalising a label twice gives the same label as normalising it once |
| Media.MixedCaseTypeIsLowered | src/useMicrophoneRecorder.ts:105 | a requested "audio/WebM" labels the blob "audio/webm" |
| Media.NullObjectIsEmpty | src/useMicrophoneRecorder.ts:87-101 | the reset artifact has neither blob nor URL and carries the session's start time and the stop time |
| Media.PauseRecorder | src/useMicrophoneRecorder.ts:143-147 | pausing keeps the recorder's identity, stream and options; it leaves it paused unless it was inactive |
| Media.ResumeRecorder | src/useMicrophoneRecorder.ts:149-152 | resuming keeps identity, stream and options; it leaves the recorder recording unless it was inactive |
| Media.SuspendContext | src/useMicrophoneRecorder.ts:143-147 | suspending keeps the context's identity; the context is suspended unless it was closed |
| Media.ResumeContext | src/useMicrophoneRecorder.ts:149-152 | resuming keeps the context's identity; the context is running unless it was closed |
| Media.SoundConstraints | src/modules/MicrophoneRecorder.ts:61-76 | the class-based recorders ask for exactly the four sound options as given, with no defaults, and never for video |
| Media.DataCallbacks | src/useMicrophoneRecorder.ts:66-69 | one onData entry per delivered chunk |
| Media.DataCallbacksForward | src/useMicrophoneRecorder.ts:66-69 | the i-th onData entry forwards the i-th chunk |
| UseMicrophoneRecorder.CaptureConstraints | src/useMicrophoneRecorder.ts:52-64 | every audio constraint defaults to on, or to two channels; a key the caller wrote overrides the default, even when it holds undefined; video is never requested |
| UseMicrophoneRecorder.FullSoundOptionsPassThrough | src/useMicrophoneRecorder.ts:52-64 | sound options with every key written reach getUserMedia unchanged |
| UseMicrophoneRecorder.OverrideIsPerKey | src/useMicrophoneRecorder.ts:52-64 | changing one sound option leaves the other constraints as they were |
| UseMicrophoneRecorder.RecorderOptionsFor | src/useMicrophoneRecorder.ts:165-171 | the recorder gets the requested options iff their MIME type is present and supported; otherwise it gets the same bitrate with the empty type; the type it gets is always supported |
| UseMicrophoneRecorder.StartOutcomeOf | src/useMicrophoneRecorder.ts:159-198 | the start promise resolves iff media devices exist, access is granted and an AudioContext exists; it rejects iff media devices are missing; otherwise it never settles |
| UseMicrophoneRecorder.DeliverAllAppends | src/useMicrophoneRecorder.ts:66-69 | delivered chunks are appended to the buffer in arrival order, each forwarded to onData when set; no handle, the start time or the platform log changes |
| UseMicrophoneRecorder.NotStartedIsNoOp | src/useMicrophoneRecorder.ts:71-119 | without a truthy start time, onPause, onReset and onStop change nothing |
| UseMicrophoneRecorder.OnPauseKeepsBuffer | src/useMicrophoneRecorder.ts:71-85 | onPause hands onChange an artifact of the whole buffer and keeps the buffer |
| UseMicrophoneRecorder.OnStopFlushes | src/useMicrophoneRecorder.ts:103-119 | onStop hands the buffer, in order and labelled with the requested MIME type as the Blob constructor normalises it, to onChange and then onStop, and empties the buffer |
| UseMicrophoneRecorder.OnResetEmitsNull | src/useMicrophoneRecorder.ts:87-101 | onReset empties the buffer and hands onChange an artifact with no blob and no URL |
| UseMicrophoneRecorder.StopRecordingReleases | src/useMicrophoneRecorder.ts:121-141 | after stopRecording, no recorder, stream, context, analyser or start time is held. The recorder is stopped iff it was held and not inactive. Tracks are stopped when a stream was held. The context is closed iff one was held |
| UseMicrophoneRecorder.StopRecordingIdempotent | src/useMicrophoneRecorder.ts:121-141 | a second stopRecording changes nothing |
| UseMicrophoneRecorder.ResetEmitsNullThenEmptyPayload | src/useMicrophoneRecorder.ts:154-157 | resetRecording emits the null artifact stamped with onReset's clock reading, then an artifact of the now empty buffer stamped with onStop's own reading, through onChange and onStop, and forgets the start time |
| UseMicrophoneRecorder.HandlersPreserveValid | src/useMicrophoneRecorder.ts:66-119 | the chunk, pause, reset and stop handlers keep the handles held together and every emitted artifact coherent |
| UseMicrophoneRecorder.TeardownPreservesValid | src/useMicrophoneRecorder.ts:121-157 | stopRecording and resetRecording keep the session valid |
| UseMicrophoneRecorder.ControlsPreserveValid | src/useMicrophoneRecorder.ts:143-198 | pause, resume, start and the recorder ending keep the session valid |
| UseMicrophoneRecorder.RecordingScenario | src/useMicrophoneRecorder.ts:159-198 | start, any chunks, stop: the host sees onStart, each chunk through onData, then one artifact holding exactly those chunks through onChange and onStop; the device was requested first and every handle is released |
| UseMicrophoneRecorder.StartedSession | src/useMicrophoneRecorder.ts:159-198 | a resolved start in a fresh hook holds the granted stream, a recording recorder on it, a running context, the analyser and the start time, and has made the calls in order |
| UseMicrophoneRecorder.PauseResumeScenario | src/useMicrophoneRecorder.ts:143-152 | start, chunks, pause, resume, chunks, stop: the pause artifact holds the first chunks; the stop artifact holds all of them in order; resuming reuses the stream and recorder without a new request |
| UseMicrophoneRecorder.PauseResumeLeg | src/useMicrophoneRecorder.ts:143-152 | after pause and resume the session equals the started one, except for the buffer, the log and the calls suspend/pause/resume/resume |
| UseMicrophoneRecorder.PauseLeg | src/useMicrophoneRecorder.ts:143-147 | after a pause the context is suspended, the recorder paused, the buffer kept and the pause artifact emitted |
| UseMicrophoneRecorder.LateChunkJoinsNextSession | src/useMicrophoneRecorder.ts:121-126 | a chunk delivered after stopRecording has flushed stays in the buffer and opens the next session's payload |
| UseMicrophoneRecorder.BlobTypeIsRequestedType | src/useMicrophoneRecorder.ts:105 | when the requested type is unsupported the recorder falls back to "", yet the artifact is labelled with the normalised requested type: the requested type itself when it is canonical |
| UseMicrophoneRecorder.StopAfterRecorderEnded | src/useMicrophoneRecorder.ts:123-126 | after the recorder ended on its own, whether its tracks ended or not, stopRecording does not stop it again but still releases it |
| UseMicrophoneRecorder.MicrophoneHook.constructor | src/useMicrophoneRecorder.ts:44-50 | a fresh hook holds no handle, no start time and an empty buffer |
| UseMicrophoneRecorder.MicrophoneHook.OnHandleChunks | src/useMicrophoneRecorder.ts:66-69 | the fields become the chunk-handler step of the previous session; validity is kept |
| UseMicrophoneRecorder.MicrophoneHook.OnPause | src/useMicrophoneRecorder.ts:71-85 | the fields become the onPause step of the previous session |
| UseMicrophoneRecorder.MicrophoneHook.OnReset | src/useMicrophoneRecorder.ts:87-101 | the fields become the onReset step of the previous session |
| UseMicrophoneRecorder.MicrophoneHook.OnStop | src/useMicrophoneRecorder.ts:103-119 | the fields become the onStop step of the previous session |
| UseMicrophoneRecorder.MicrophoneHook.StopRecording | src/useMicrophoneRecorder.ts:121-141 | the fields become the stopRecording step of the previous session |
| UseMicrophoneRecorder.MicrophoneHook.Release | src/useMicrophoneRecorder.ts:123-140 | every handle and the start time are cleared, and the release calls are appended |
| UseMicrophoneRecorder.MicrophoneHook.PauseRecording | src/useMicrophoneRecorder.ts:143-147 | the fields become the pauseRecording step of the previous session |
| UseMicrophoneRecorder.MicrophoneHook.ResumeRecording | src/useMicrophoneRecorder.ts:149-152 | the fields become the resumeRecording step of the previous session |
| UseMicrophoneRecorder.MicrophoneHook.ResetRecording | src/useMicrophoneRecorder.ts:154-157 | the fields become the resetRecording step of the previous session, with separate clock readings for onReset and onStop |
| UseMicrophoneRecorder.MicrophoneHook.StartRecording | src/useMicrophoneRecorder.ts:159-198 | the fields become the startRecording step; the returned outcome is how the promise ends |
| UseMicrophoneRecorder.MicrophoneHook.Launch | src/useMicrophoneRecorder.ts:177-191 | once the context has resumed, the recorder, context, analyser and start time are stored and onStart runs |
| UseMicrophoneRecorder.MicrophoneHook.RecorderEnded | src/useMicrophoneRecorder.ts:123-124 | a held recorder becomes inactive and stays held; its stream is no longer active when its tracks ended |
| ModulesMicrophoneRecorder.DataAvailableAppends | src/modules/MicrophoneRecorder.ts:128-132 | each chunk is appended at the end of the shared buffer and forwarded to onData when set |
| ModulesMicrophoneRecorder.HandlersOnBuffer | src/modules/MicrophoneRecorder.ts:175-216 | onPause hands over the buffer and keeps it; onStop hands it over and empties it; onReset empties it and hands over the null artifact |
| ModulesMicrophoneRecorder.StartSetsTimeAndAction | src/modules/MicrophoneRecorder.ts:85-88 | every startRecording overwrites the start time and points actionsOnStop at onStop, whichever branch follows |
| ModulesMicrophoneRecorder.StopEventAfterStart | src/modules/MicrophoneRecorder.ts:120-122 | after a start, the recorder's stop event hands over the buffer and empties it |
| ModulesMicrophoneRecorder.StopEventAfterReset | src/modules/MicrophoneRecorder.ts:170-173 | after resetRecording, the stop event hands over the null artifact |
| ModulesMicrophoneRecorder.StartBeforeStopEventUndoesReset | src/modules/MicrophoneRecorder.ts:85-88 | a start between resetRecording and the stop event turns that event back into a stop, so the host receives a blob instead of the null artifact |
| ModulesMicrophoneRecorder.StopRecordingGuard | src/modules/MicrophoneRecorder.ts:147-158 | stopRecording does nothing unless a non-inactive recorder is held. Otherwise it stops the recorder and its tracks, drops it, resets the analyser and runs the callback |
| ModulesMicrophoneRecorder.StartAfterStopAcquires | src/modules/MicrophoneRecorder.ts:106-114 | in a valid state, after a stop that took effect, the next start requests the device again and builds and starts a new recorder with the configured options iff their type is supported |
| ModulesMicrophoneRecorder.AcquireWithoutAudioContext | src/modules/MicrophoneRecorder.ts:106-141 | with no AudioContext constructor and no context held, creating the shared context throws after the recorder is stored and onStart has run. The recorder stays inactive; no context or analyser exists; only the device request was made |
| ModulesMicrophoneRecorder.StuckWithoutAudioContext | src/modules/MicrophoneRecorder.ts:85-168 | a held recorder that never started, with no context, is stuck. A start only overwrites the start time and the stop action; a stop does nothing; pause and resume leave it inactive |
| ModulesMicrophoneRecorder.NoAudioContextNeverRecords | src/modules/MicrophoneRecorder.ts:85-145 | on a platform without AudioContext the first start never starts the recorder, and no later start or stop changes that |
| ModulesMicrophoneRecorder.RestartNeedsActiveStream | src/modules/MicrophoneRecorder.ts:90-105 | after the recorder ended, with a context held, the next start restarts it iff its stream is still active. When its tracks ended, start(10) throws NotSupportedError: the recorder stays inactive, nothing is connected and onStart does not run |
| ModulesMicrophoneRecorder.StartOnPausedResumes | src/modules/MicrophoneRecorder.ts:90-98 | a start on a paused recorder resumes it (and a suspended context) and requests nothing new |
| ModulesMicrophoneRecorder.StepsPreserveValid | src/modules/MicrophoneRecorder.ts:85-216 | every operation and event keeps a held recorder together with its stream and start time, with a context and analyser unless it never started, and inactive once its stream is no longer active; every artifact stays coherent |
| ModulesMicrophoneRecorder.MicrophoneRecorder.constructor | src/modules/MicrophoneRecorder.ts:54-83 | the callbacks, options and sound-option constraints are stored; no recorder and no stop action are held |
| ModulesMicrophoneRecorder.MicrophoneRecorder.DataAvailable | src/modules/MicrophoneRecorder.ts:128-132 | the state becomes the data step of the previous state |
| ModulesMicrophoneRecorder.MicrophoneRecorder.OnPause | src/modules/MicrophoneRecorder.ts:175-187 | the state becomes the onPause step of the previous state |
| ModulesMicrophoneRecorder.MicrophoneRecorder.OnReset | src/modules/MicrophoneRecorder.ts:189-201 | the state becomes the onReset step of the previous state |
| ModulesMicrophoneRecorder.MicrophoneRecorder.OnStop | src/modules/MicrophoneRecorder.ts:203-216 | the state becomes the onStop step of the previous state |
| ModulesMicrophoneRecorder.MicrophoneRecorder.StopEvent | src/modules/MicrophoneRecorder.ts:120-122 | the state becomes the step of whichever action actionsOnStop holds |
| ModulesMicrophoneRecorder.MicrophoneRecorder.PauseEvent | src/modules/MicrophoneRecorder.ts:124-126 | the state becomes the onPause step |
| ModulesMicrophoneRecorder.MicrophoneRecorder.StartRecording | src/modules/MicrophoneRecorder.ts:85-145 | the state becomes the startRecording step of the previous state; the call throws iff it reaches start(10) on a recorder whose stream is no longer active |
| ModulesMicrophoneRecorder.MicrophoneRecorder.RestartHeld | src/modules/MicrophoneRecorder.ts:90-105 | the held recorder is resumed, restarted or left as it is, as the startRecording branch says; on a stream that is no longer active start(10) throws before the source is connected or onStart runs |
| ModulesMicrophoneRecorder.MicrophoneRecorder.Acquire | src/modules/MicrophoneRecorder.ts:106-141 | the device is requested. On a grant the new recorder is stored and onStart runs. The recorder is then started with the shared context and the analyser, or stays inactive when no context can be created |
| ModulesMicrophoneRecorder.MicrophoneRecorder.StopRecording | src/modules/MicrophoneRecorder.ts:147-158 | the state becomes the stopRecording step of the previous state |
| ModulesMicrophoneRecorder.MicrophoneRecorder.PauseRecording | src/modules/MicrophoneRecorder.ts:160-163 | the state becomes the pauseRecording step of the previous state |
| ModulesMicrophoneRecorder.MicrophoneRecorder.ResumeRecording | src/modules/MicrophoneRecorder.ts:165-168 | the state becomes the resumeRecording step of the previous state |
| ModulesMicrophoneRecorder.MicrophoneRecorder.RecorderEnded | src/modules/MicrophoneRecorder.ts:147-148 | a held recorder becomes inactive and stays held; its stream is no longer active when its tracks ended |
| ModulesMicrophoneRecorder.MicrophoneRecorder.ResetRecording | src/modules/MicrophoneRecorder.ts:170-173 | the state becomes the resetRecording step of the previous state |
| LibsMicrophoneRecorder.EventsDriveRecordingState | src/libs/MicrophoneRecorder.ts:134-151 | start and resume events set "recording", the pause event "paused", the stop event "stopped" |
| LibsMicrophoneRecorder.PauseKeepsStopFlushes | src/libs/MicrophoneRecorder.ts:187-218 | the pause event hands the buffer to onPause and keeps it; the stop event hands it to onStop and empties it |
| LibsMicrophoneRecorder.PauseThenStopSameChunks | src/libs/MicrophoneRecorder.ts:144-147 | pause then stop with no new data: both artifacts hold the same chunks, and the buffer ends empty |
| LibsMicrophoneRecorder.PauseSetsFieldRegardless | src/libs/MicrophoneRecorder.ts:87-91 | with no recorder held, pauseRecording still sets "paused"; before the first grant it throws after setting only that field |
| LibsMicrophoneRecorder.ControlsSetRecordingState | src/libs/MicrophoneRecorder.ts:87-97 | pauseRecording sets "paused" and resumeRecording sets "recording", whether or not the call throws |
| LibsMicrophoneRecorder.DataAvailableAppends | src/libs/MicrophoneRecorder.ts:153-159 | each chunk is appended at the end of the buffer and forwarded to onData when set; recordingState is unchanged |
| LibsMicrophoneRecorder.StopRecordingGuard | src/libs/MicrophoneRecorder.ts:174-185 | stopRecording acts only on a held non-inactive recorder, and never changes recordingState |
| LibsMicrophoneRecorder.StartOnPausedResumes | src/libs/MicrophoneRecorder.ts:99-110 | a start on a paused recorder overwrites the start time, resumes it and requests nothing new |
| LibsMicrophoneRecorder.AcquireChoosesOptions | src/libs/MicrophoneRecorder.ts:121-128 | the new recorder records the granted stream; it carries the configured options iff their type is supported, or when they are empty anyway |
| LibsMicrophoneRecorder.RestartNeedsActiveStream | src/libs/MicrophoneRecorder.ts:102-119 | after the recorder ended, the next start restarts it iff its stream is still active. When its tracks ended, start(10) throws NotSupportedError: the recorder stays inactive, nothing is connected, onStart does not run and recordingState is unchanged |
| LibsMicrophoneRecorder.StepsPreserveValid | src/libs/MicrophoneRecorder.ts:87-218 | every operation and event keeps the session's handles together, a recorder on a stream that is no longer active inactive, and every artifact coherent |
| LibsMicrophoneRecorder.MicrophoneRecorder.constructor | src/libs/MicrophoneRecorder.ts:55-85 | callbacks, options and constraints are stored; recordingState is "stopped" and no recorder is held |
| LibsMicrophoneRecorder.MicrophoneRecorder.OnPause | src/libs/MicrophoneRecorder.ts:187-201 | the state becomes the onPause step of the previous state |
| LibsMicrophoneRecorder.MicrophoneRecorder.OnStop | src/libs/MicrophoneRecorder.ts:203-218 | the state becomes the onStop step of the previous state |
| LibsMicrophoneRecorder.MicrophoneRecorder.StartEvent | src/libs/MicrophoneRecorder.ts:134-136 | the state becomes the start-event step |
| LibsMicrophoneRecorder.MicrophoneRecorder.StopEvent | src/libs/MicrophoneRecorder.ts:138-142 | the state becomes the stop-event step |
| LibsMicrophoneRecorder.MicrophoneRecorder.PauseEvent | src/libs/MicrophoneRecorder.ts:144-147 | the state becomes the pause-event step |
| LibsMicrophoneRecorder.MicrophoneRecorder.ResumeEvent | src/libs/MicrophoneRecorder.ts:149-151 | the state becomes the resume-event step |
| LibsMicrophoneRecorder.MicrophoneRecorder.DataAvailable | src/libs/MicrophoneRecorder.ts:153-159 | the state becomes the data step |
| LibsMicrophoneRecorder.MicrophoneRecorder.PauseRecording | src/libs/MicrophoneRecorder.ts:87-91 | the state becomes the pauseRecording step; completion is reported iff an audio context exists (otherwise the call throws) |
| LibsMicrophoneRecorder.MicrophoneRecorder.ResumeRecording | src/libs/MicrophoneRecorder.ts:93-97 | the state becomes the resumeRecording step; completion is reported iff an audio context exists |
| LibsMicrophoneRecorder.MicrophoneRecorder.StartRecording | src/libs/MicrophoneRecorder.ts:99-172 | the state becomes the startRecording step of the previous state; the call throws iff it reaches start(10) on a recorder whose stream is no longer active |
| LibsMicrophoneRecorder.MicrophoneRecorder.RestartHeld | src/libs/MicrophoneRecorder.ts:102-119 | the held recorder is resumed, restarted or left as it is; on a stream that is no longer active start(10) throws before the source is connected or onStart runs |
| LibsMicrophoneRecorder.MicrophoneRecorder.Acquire | src/libs/MicrophoneRecorder.ts:120-168 | the device is requested; on a grant a new recorder, the shared context and the analyser are stored |
| LibsMicrophoneRecorder.MicrophoneRecorder.StopRecording | src/libs/MicrophoneRecorder.ts:174-185 | the state becomes the stopRecording step of the previous state |
| LibsMicrophoneRecorder.MicrophoneRecorder.RecorderEnded | src/libs/MicrophoneRecorder.ts:175 | a held recorder becomes inactive and stays held; its stream is no longer active when its tracks ended |
| ReactAudioRecorder.ProbeContainer | src/ReactAudioRecorder.tsx:31-35 | a container is found iff MP4 or WebM audio is supported; MP4 is preferred; the type is "audio/" followed by the extension and is supported |
| ReactAudioRecorder.ResolveSettings | src/ReactAudioRecorder.tsx:9-24 | every given prop keeps its value; with no props, the defaults are 640, 100, 128000, on, on, on, 2 and the two colours and class name |
| ReactAudioRecorder.WidgetConstraints | src/ReactAudioRecorder.tsx:37-58 | the widget's settings reach getUserMedia unchanged; with no props, all three audio processing options are on and two channels are requested |
| ReactAudioRecorder.ProbedTypeIsUsed | src/ReactAudioRecorder.tsx:31-58 | a probed container is supported, so a resolved start builds the recorder with exactly the widget's type and bitrate |
| ReactAudioRecorder.StatusOf | src/ReactAudioRecorder.tsx:78-80 | "pause" iff recording and paused; "recording" iff recording and not paused; "stopped" iff not recording; the string reported is the one the component's expression picks |
| ReactAudioRecorder.ReplaySnoc | src/ReactAudioRecorder.tsx:82-107 | replaying one more control is applying it to the replayed flags |
| ReactAudioRecorder.ReplayIsLastWrite | src/ReactAudioRecorder.tsx:82-107 | after any run of controls, each flag holds the value written by the last control that writes it (an independent reference definition) |
| ReactAudioRecorder.Reports | src/ReactAudioRecorder.tsx:78-80 | at most one status per control, and none without handleStatus |
| ReactAudioRecorder.LastReportIsCurrent | src/ReactAudioRecorder.tsx:78-80 | after the mount report, the last status the host heard always describes the current flags |
| ReactAudioRecorder.PauseWhileStoppedRepeatsStopped | src/ReactAudioRecorder.tsx:99-102 | pausing while stopped reports "stopped" a second time |
| ReactAudioRecorder.StopKeepsPause | src/ReactAudioRecorder.tsx:88-91 | stop does not clear pause, so start, pause, stop, start reports "pause" while recording |
| ReactAudioRecorder.UnresolvedStartKeepsFlags | src/ReactAudioRecorder.tsx:82-86 | a start whose promise does not resolve changes no flag and reports nothing |
| ReactAudioRecorder.RecorderWidget.constructor | src/ReactAudioRecorder.tsx:26-58 | the first render creates an empty hook and sets both flags false; no status has been reported yet |
| ReactAudioRecorder.RecorderWidget.RunStatusEffect | src/ReactAudioRecorder.tsx:78-80 | the status effect reports the current status iff handleStatus is set, and changes no flag |
| ReactAudioRecorder.RecorderWidget.SetFlags | src/ReactAudioRecorder.tsx:78-80 | the flags are set and a status is reported iff they changed and handleStatus is set |
| ReactAudioRecorder.RecorderWidget.Start | src/ReactAudioRecorder.tsx:82-86 | the hook takes its start step; record is set iff the promise resolves |
| ReactAudioRecorder.RecorderWidget.Stop | src/ReactAudioRecorder.tsx:88-91 | record is cleared and the hook takes its stop step |
| ReactAudioRecorder.RecorderWidget.Reset | src/ReactAudioRecorder.tsx:93-97 | both flags are cleared and the hook takes its reset step, with onReset's and onStop's separate clock readings |
| ReactAudioRecorder.RecorderWidget.Pause | src/ReactAudioRecorder.tsx:99-102 | pause is set and the hook takes its pause step |
| ReactAudioRecorder.RecorderWidget.Resume | src/ReactAudioRecorder.tsx:104-107 | pause is cleared and the hook takes its resume step |
| ReactAudioRecorder.RecorderWidget.GetFileExtension | src/ReactAudioRecorder.tsx:117 | the extension of the negotiated container |
| ReactAudioRecorder.MountAudioRecorder | src/ReactAudioRecorder.tsx:8-80 | mounting fails iff no container is found; a mounted widget has reported "stopped" when handleStatus is set; onStop never reaches the hook |
| ReactVisualAudioRecorder.NegotiateWithOverride | src/ReactVisualAudioRecorder.tsx:35-40 | a truthy override of either type or extension is taken verbatim; otherwise the platform is probed; failure iff no override and no container |
| ReactVisualAudioRecorder.UnsupportedOverrideMislabels | src/ReactVisualAudioRecorder.tsx:35-40 | an unsupported overridden type makes the recorder fall back to "". The artifact is still labelled with the overridden type as normalised, which is verbatim when it is canonical |
| ReactVisualAudioRecorder.ExtensionOnlyOverride | src/ReactVisualAudioRecorder.tsx:36 | overriding only the extension skips the probe: the recorder uses the platform default and artifacts carry an empty type |
| ReactVisualAudioRecorder.RenderVisualAudioRecorder | src/ReactVisualAudioRecorder.tsx:8-64 | rendering fails iff negotiation fails; onStop reaches the hook exactly when the host sets it; no status has been reported |
| ReactVisualAudioRecorder.ApiEffectAlwaysThrows | src/ReactVisualAudioRecorder.tsx:66-68 | the hook's result has no mediaRecorderApi, so the first effect throws |
| ReactVisualAudioRecorder.MountVisualAudioRecorder | src/ReactVisualAudioRecorder.tsx:66-88 | no mount succeeds. It fails at render iff negotiation fails, and otherwise at the first commit when the first effect throws. The status effect never runs, so the host hears no status |

## Left out

- `olderNavigatorCompat` and `createAudioContextCompat` (browser shims). The presence of `navigator.mediaDevices` and of an AudioContext constructor are inputs of a start.
- The `Visualizer` effects of both widgets and the canvas they render: drawing only.
- What React does after an effect of `ReactVisualAudioRecorder` throws (error boundaries, unmounting the tree). Its handle operations are modelled on the rendered widget, though no mount survives to call them.
- `src/libs/AudioContext.ts` creates its context when the module loads. Without an AudioContext constructor the libs recorder's module fails to load, which is not modelled.
- The `AudioContext` helper modules (`src/modules/AudioContext.ts`, `src/libs/AudioContext.ts`) are not modelled on their own. Only their observable use is modelled: the shared context is created on first use (which throws without a constructor), an existing one is reused and resumed, and `resetAnalyser` is called at stop.
- `AudioPlayer`, the example app and the `dist` build output: not part of the core.
- The exceptions `MediaRecorder.pause()` and `resume()` raise on an inactive recorder. The model leaves such a recorder unchanged.
- Media.DataCallbacks: its contract states only the length. That each entry forwards its chunk is the lemma `DataCallbacksForward`.
- Stopping each audio track is one `StopTracks(stream)` call per stream. Object URLs are never revoked by the source and are not tracked beyond `CreateObjectUrl`.
- Asynchronous steps (the getUserMedia promise, `audioCtx.resume().then`) are taken as one atomic step when access is granted. Events that interleave with them are not modelled.
- The order of host callbacks relative to platform calls: they are kept in two separate logs.
- React rendering details are not modelled. A state setter takes effect at once. Stale closures captured by `useImperativeHandle` (dependencies `[record]`) and by the hook's handlers are not modelled.
- `Date.now()` is a parameter, one per reading: `resetRecording` takes two, one for `onReset` and one for the `onStop` inside `stopRecording`.
- The arguments passed to onStart, the alert text and `console.log` output.
- Module-level variables of the class-based recorders are shared between instances; the model holds one instance.
- The empty `useEffect` of the hook: it has no effect.
- LibsMicrophoneRecorder.MicrophoneRecorder.PauseRecording: the exception thrown before the first grant is modelled as `completed == false` rather than as control leaving the caller.
