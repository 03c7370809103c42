# Scrivano, modelled in Dafny

Scrivano is a push-to-talk dictation app for macOS. You hold a global shortcut and speak. When you let go, the recording goes to a Whisper transcription endpoint, and the transcript is pasted into the application that was in front when you pressed the shortcut.

This project models the decision logic under the Tauri, operating-system and network plumbing, and proves properties of it. The model covers:

- the shortcut handler's recorder state machine:
  - a 300 ms debounce;
  - the original application, never Scrivano itself;
  - a handle and a stop flag per recording;
- the ordered delivery of a finished recording, from the API key through the transcript to the paste. Before each indicator or paste step, a fresh `is_recording` answer decides whether the step runs;
- the classification of failed transcription requests, and the trim-and-deny-list filter for Whisper's silence hallucinations;
- the audio worker's buffers: every sample appended, a 512-sample level window, a three-way split into level bars, and the "too short" rule at Stop;
- the parsers, validators and display of shortcuts, API keys and providers;
- the clipboard save, paste and restore protocol, with the bundle-id whitelist that guards the AppleScript;
- the integer geometry that places the indicator and the main window.

## How the world is represented

- **The log.** Every side effect appends an entry to one log, `Effects.Host.log`. This covers events sent to the webviews, tray-icon changes, child processes run (pbpaste, pbcopy, osascript), the indicator being shown or destroyed, and the audio file being removed. Because the log is shared, ordering across components can be stated and proved.
- **Shared state.** The same `Host` holds the system clipboard and `AppState` (`is_recording`, `last_transcription`).
- **Outside answers are inputs.** Whatever the OS, a device or the network answers becomes an input datatype:
  - `Paste.PasteWorld`, the outcome of each process run;
  - `Transcription.Reply`, the HTTP exchange;
  - `Audio.WavOutcome`;
  - `ShortcutHandler.PressWorld`, which holds the frontmost app, whether the recorder started, the mouse position, the screen size and the window builder's outcome;
  - `Recording.Inputs`, which holds the two `is_recording` answers a delivery reads, the transcription result and the paste world.
- **Pure code becomes functions; mutating code becomes classes and methods.**
  - Pure code becomes functions and lemmas: classification, filtering, parsers, geometry and the effects of a paste.
  - Code that mutates fields becomes classes: `Audio.RecordingWorker`, `ShortcutHandler.Recorder`, `Commands.ShortcutSettings`, `Commands.SettingsState`, `Commands.SettingsFile` and `Effects.Host`.
  - The methods of those classes are proved against specification functions:
    - `Recording.HandleRecordingStop` against `Recording.Deliver`;
    - `Paste.PasteToApp` against `Paste.PasteToAppRun`;
    - `Settings.ParseModifiers` against `Settings.ModifiersOf`.
  - The properties are then proved as lemmas about those functions.
- **Time** is a natural number of milliseconds, and `Instant::elapsed` saturates at zero.
- **The keychain** is a map from account name to secret. **The environment** is the set of variable names that are set.
- **The settings file** is one `Commands.SettingsFile` that both `set_shortcut` and `set_transcription_provider` write. It holds the settings that `load_settings` would read back, and a write that fails leaves it as it was.

Where the code and its surrounding description differ, the model follows the code:
- The hallucination filter has no clip-duration condition.
- Errors for unexpected statuses quote the raw response body.
- A press during a recording is not refused: the new handle and stop flag replace the old ones.
- recording.rs builds a `TranscriptionRequest` with the provider's endpoint and model, but transcription.rs does not define that type. transcription.rs has a `(path, key)` signature with the OpenAI endpoint and `whisper-1` hard-coded, and that is what is modelled. For the same reason, the delivery takes the result of transcription as an input: `Recording.HallucinationNeverPasted` connects it to `Transcription.Transcribe`.
- The no-speech message keeps the three characters U+00E2 U+20AC U+201D where an em dash was meant, exactly as the source text spells it.

## Model

| member | source | states |
|---|---|---|
| ShortcutHandler.Debounced | src-tauri/src/lib.rs:225-241 | a press is ignored exactly when a stop was recorded less than 300 ms earlier; with no recorded stop (`None`), no press is ever ignored |
| ShortcutHandler.Elapsed | src-tauri/src/lib.rs:229 | `Instant::elapsed` on millisecond times, which is zero when the clock reads earlier than the start |
| ShortcutHandler.OriginalApp | src-tauri/src/lib.rs:243-246 | the remembered application is the frontmost one exactly when there is one and it is not `com.tommyross.scrivano` |
| ShortcutHandler.Recorder.constructor | src-tauri/src/lib.rs:112-117 | the recorder starts with no handle, one unset stop flag, no original app and no stop time |
| ShortcutHandler.Recorder.Press | src-tauri/src/lib.rs:224-323 | the recorder keeps its invariant, so the original app is never Scrivano; a debounced press changes no state and logs nothing; a failed start logs exactly one "Failed to start recording" error and leaves handle, flags, original app, stop time, `is_recording` and the indicator unchanged; a successful start (anything else) shows or builds the indicator, restores focus to the original app (activation result ignored), stores the new handle and one fresh unset stop flag, whatever was stored before, records the filtered original app, sets `is_recording`, switches the tray icon and emits `recording-status true`, in that order, while the stop time stays as it was |
| ShortcutHandler.AnnounceStart | src-tauri/src/lib.rs:250-313 | an accepted press shows or builds the indicator, runs the activation script for a whitelisted original app and nothing for no app, sets `is_recording`, then logs the tray icon and `recording-status true`, in that order |
| ShortcutHandler.Recorder.Release | src-tauri/src/lib.rs:324-339 | always: the current stop flag is set, the stop time becomes `now`, the handle is taken (none remains), `is_recording` is cleared, and the tray icon plus `recording-status false` are logged; the original app is kept; a job is returned exactly when a handle was taken, and it carries that handle and the original app captured at the press |
| ShortcutHandler.RunJob | src-tauri/src/lib.rs:339-362 | the worker's reply to Stop decides: a path runs `handle_recording_stop` with the job's original app, with the full effect that `Recording.HandleRecordingStop` states; an error logs exactly one "Failed to stop recording" error and an indicator destruction and stores no transcript |
| ShortcutHandler.PressPressRelease | src-tauri/src/lib.rs:267-273 | two accepted presses and then a release: the first press's stop flag stays unset, only the second is set, and the job handed on is the second recording with its original app |
| ShortcutHandler.StartupShortcut | src-tauri/src/lib.rs:202-209 | the registered shortcut has the parsed modifier set, or no modifiers when the set is empty, and the parsed key, or Space when the key is not recognised |
| ShortcutHandler.DefaultStartupShortcut | src-tauri/src/lib.rs:201-209 | with the default settings the shortcut registered at startup is super+shift+Space |
| Recording.HandleRecordingStop | src-tauri/src/recording.rs:6-98 | log, clipboard, `last_transcription` and indicator end up as `Deliver` describes, with the key from the selected provider and the paste that `PasteOf` makes |
| Recording.ReportMissingKey | src-tauri/src/recording.rs:34-45 | logs the missing-key error, then destroys the indicator only when no new recording is active |
| Recording.TranscribeAndDeliver | src-tauri/src/recording.rs:53-97 | announces "Transcribing...", then either reports the transcription error or shows and pastes the transcript, and removes the audio file last, as `WithKey` describes |
| Recording.ShowTranscript | src-tauri/src/recording.rs:63-84 | always stores and emits the transcript; then, when no new recording is active, destroys the indicator and pastes |
| Recording.PasteTranscript | src-tauri/src/recording.rs:72-81 | pastes into the original app when there is one and through the clipboard otherwise, and reports a failure as "Failed to paste: …" |
| Recording.PasteRunIsPaste | src-tauri/src/recording.rs:72-76 | either paste only runs commands, and it reads the clipboard exactly once, first |
| Recording.DeliverySegments | src-tauri/src/recording.rs:16-97 | lays out the log of each of the four paths: missing key, failed transcription, transcript while recording, and transcript then paste |
| Recording.ProcessingShownOnlyWhenIdle | src-tauri/src/recording.rs:15-19 | the first effect is `indicator-state processing` exactly when no new recording is active at entry |
| Recording.MissingKeyStopsEarly | src-tauri/src/recording.rs:34-45 | without a key: no command runs, nothing is transcribed, stored or removed, the missing-key error is emitted, and the indicator is destroyed exactly when no new recording is active |
| Recording.TranscriptAlwaysStored | src-tauri/src/recording.rs:63-65 | a transcript is stored and emitted whatever the later `is_recording` answer is |
| Recording.NothingPastedWhileRecording | src-tauri/src/recording.rs:67-84 | while a new recording is active no command runs, the clipboard is untouched and the indicator is not destroyed |
| Recording.PasteFollowsIndicator | src-tauri/src/recording.rs:68-76 | with a transcript and no new recording, the indicator is destroyed first and the paste's effects follow immediately; no command ran before; the clipboard ends as the paste leaves it |
| Recording.IndicatorGuarded | src-tauri/src/recording.rs:40-92 | on every path the indicator is destroyed exactly when no new recording is active at the later check |
| Recording.TranscriptionFailureReported | src-tauri/src/recording.rs:86-92 | a failed transcription runs no command, stores nothing, leaves the clipboard and emits "Transcription failed: …" |
| Recording.OneErrorAtMost | src-tauri/src/recording.rs:34-92 | exactly one error is emitted for a missing key, a failed transcription, or a failed paste that was attempted; otherwise none |
| Recording.OnePasteAtMost | src-tauri/src/recording.rs:68-81 | the clipboard is read exactly once when a transcript is pasted, and never otherwise, so at most one paste happens per call |
| Recording.PasteFailureKeepsTranscript | src-tauri/src/recording.rs:64-81 | a failed paste is reported and does not undo the stored transcript |
| Recording.HallucinationNeverPasted | src-tauri/src/recording.rs:62-92 | a deny-listed transcript from a successful exchange is reported as no speech, stored nowhere and never pasted |
| Recording.AudioFileRemovedLast | src-tauri/src/recording.rs:95-97 | when a key was found, removing the audio file is the last effect after both success and failure; the missing-key return skips it |
| Transcription.RequestForm | src-tauri/src/transcription.rs:20-34 | the form always carries `model = whisper-1` and `language = en`; the file part is `audio/wav`, named after the path or `audio.wav` |
| Transcription.AuthorizationHeader | src-tauri/src/transcription.rs:38 | the header value is `Bearer ` followed by the key |
| Transcription.ClassifyFailure | src-tauri/src/transcription.rs:44-57 | status 429 or `insufficient_quota` in the body gives the quota message, which takes precedence over status 401 giving the invalid-key message; any other status gives `API error (<status> …` ending with the raw body |
| Transcription.ClassifyExampleQuota | src-tauri/src/transcription.rs:48-52 | a 401 whose body carries the quota marker is a quota error |
| Transcription.ClassifyExampleInvalidKey | src-tauri/src/transcription.rs:53-55 | a 401 without the marker is an invalid key |
| Transcription.FilterText | src-tauri/src/transcription.rs:64-84 | the result is `Ok` exactly when the trimmed text is not a deny-listed phrase, and then it is the trimmed text; otherwise it is the no-speech error |
| Transcription.IsHallucination | src-tauri/src/transcription.rs:68-82 | the text equals one of the six deny-listed phrases, ignoring ASCII case; `Transcription.HallucinationIgnoresCaseAndSpace` states its use |
| Transcription.OkIsTrimmedTranscript | src-tauri/src/transcription.rs:44-84 | a successful result comes only from a success status with a decoded body; it is the decoded text trimmed, with no whitespace at either end, and not deny-listed |
| Transcription.Transcribe | src-tauri/src/transcription.rs:40-84 | the result of one exchange: the transport error, the classified failure, the decoding error or the filtered transcript; `Transcription.OkIsTrimmedTranscript` and `Transcription.FailureNeverFiltered` state its properties |
| Transcription.FailureNeverFiltered | src-tauri/src/transcription.rs:44-64 | a non-success status yields its classification, never the no-speech message |
| Transcription.HallucinationRejected | src-tauri/src/transcription.rs:64-82 | a success status whose trimmed text is deny-listed yields the no-speech error |
| Transcription.HallucinationIgnoresCaseAndSpace | src-tauri/src/transcription.rs:64-82 | a deny-listed phrase in any ASCII case, with any whitespace around it, is rejected |
| Transcription.PhrasePlusWordsPasses | src-tauri/src/transcription.rs:76 | the comparison is exact equality: a deny-listed phrase followed by further words is returned unchanged |
| Transcription.FilterExampleSpaced | src-tauri/src/transcription.rs:64-82 | "  Thank You. \n" is rejected |
| Transcription.FilterExampleUpper | src-tauri/src/transcription.rs:76 | "YOU" is rejected |
| Transcription.FilterExamplePasses | src-tauri/src/transcription.rs:76-84 | "you know" is returned as is |
| Audio.Magnitudes | src-tauri/src/audio.rs:89 | one magnitude per sample, in order |
| Audio.Bars | src-tauri/src/audio.rs:251-272 | a level update always yields exactly three bars |
| Audio.ChunksPartition | src-tauri/src/audio.rs:246-260 | with `c = len/3`, the ranges `[0,c)`, `[c,2c)` and `[2c,len)` are non-empty and contiguous, cover the window, and the last one takes the remainder; the three bars' chunks put together are the window |
| Audio.WavResult | src-tauri/src/audio.rs:217-233 | a path is returned exactly when the file was written; each failing step yields its own message |
| Audio.WindowStep | src-tauri/src/audio.rs:88-89 | one more sample adds its magnitude to the end of the current window |
| Audio.LevelsStep | src-tauri/src/audio.rs:88-94 | one more sample either grows the window and keeps the levels, or completes the window, whose bars become the levels |
| Audio.SampleStep | src-tauri/src/audio.rs:82-95 | one more sample keeps the level window and the levels consistent with all samples so far, whether or not it fills the window, and the window never reaches 512 |
| Audio.RecordingWorker.constructor | src-tauri/src/audio.rs:37-77 | a worker starts with no samples, an empty window and three initial levels |
| Audio.RecordingWorker.UpdateAudioLevels | src-tauri/src/audio.rs:241-275 | fewer than three magnitudes leave the levels unchanged; otherwise the three bars of the window replace them |
| Audio.RecordingWorker.ProcessSample | src-tauri/src/audio.rs:82-95 | appends exactly the sample; the window grows by its magnitude, or, on reaching 512, becomes the levels and is cleared; the invariant (window < 512, levels of the last full window) is kept |
| Audio.RecordingWorker.ProcessBlock | src-tauri/src/audio.rs:104-110 | a block's mono values are appended in order and the invariant is kept |
| Audio.RecordingWorker.Reply | src-tauri/src/audio.rs:50-236 | a setup failure replies with its message; otherwise fewer than 1000 samples is "Recording too short", with no file; otherwise the WAV outcome decides; a path only when all three succeed |
| Audio.RecordingWorker.Stop | src-tauri/src/audio.rs:23-31 | Stop returns the worker's reply |
| Audio.StartRecording | src-tauri/src/audio.rs:34-48 | starting never fails, whatever the device will do; the new worker holds no samples and three initial levels |
| Audio.SetupFailureRepliesAtStop | src-tauri/src/audio.rs:52-198 | every setup failure surfaces at Stop under its own message, never as "too short" |
| Settings.ParseModifiers | src-tauri/src/settings.rs:102-116 | the loop computes the union of the flags of the recognised names |
| Settings.ModifiersOfMembership | src-tauri/src/settings.rs:102-116 | a flag is in the result exactly when some name maps to it |
| Settings.ModifiersOfOrderFree | src-tauri/src/settings.rs:103-115 | lists with the same names, in any order and with repetitions, parse alike |
| Settings.ModifierOfIgnoresCase | src-tauri/src/settings.rs:106 | modifier names are matched case-insensitively |
| Settings.ModifierOf | src-tauri/src/settings.rs:106-111 | the flag a modifier name stands for, if any; `Settings.ModifierOfIgnoresCase` and `Settings.ModifierExamples` state its properties |
| Settings.ModifierExamples | src-tauri/src/settings.rs:298-319 | super, shift, super+shift+ctrl, the empty list, and an unknown name that is ignored |
| Settings.ParseKeyIgnoresCase | src-tauri/src/settings.rs:118-119 | a key parses as its lower-case form does |
| Settings.ParseKeyLetters | src-tauri/src/settings.rs:322-326 | "a", "z" and "A" parse to KeyA, KeyZ and KeyA |
| Settings.ParseKeySpecial | src-tauri/src/settings.rs:329-334 | space and tab parse, and enter and return are aliases |
| Settings.ParseKeyFunctionAndInvalid | src-tauri/src/settings.rs:337-345 | f1 and f12 parse; an unlisted name gives `None` |
| Settings.KeyTableHasNoPlus | src-tauri/src/settings.rs:121-200 | no entry of the key table contains '+' |
| Settings.ParseKey | src-tauri/src/settings.rs:118-201 | the key table matched after lower-casing; no key containing '+' parses; `Settings.ParseKeyIgnoresCase` and the examples state the rest |
| Settings.LoweringKeepsPlus | src-tauri/src/settings.rs:119 | lower-casing keeps a '+' |
| Settings.FormatShortcutDisplay | src-tauri/src/settings.rs:204-233 | the glyphs of the recognised modifiers in input order, then the key's symbol or the key upper-cased |
| Settings.DisplayShowsParsedModifiers | src-tauri/src/settings.rs:207-215 | the display shows one glyph per name that `parse_modifiers` recognises, in order, and the set of those flags is the parsed set |
| Settings.DisplayExamples | src-tauri/src/settings.rs:347-365 | "⌘⇧Space", "⌃C", and the default shortcut's display |
| Settings.DefaultsParse | src-tauri/src/settings.rs:11-50 | the defaults are super+shift+Space and OpenAI |
| Settings.ApiKeyFor | src-tauri/src/settings.rs:239-246 | a key is returned exactly when the provider's account is in the keychain, and it is the stored one |
| Settings.ProviderTables | src-tauri/src/settings.rs:249-262 | OpenAI maps to whisper-1 and api.openai.com; Groq maps to whisper-large-v3-turbo and api.groq.com; the two providers differ in every table |
| Settings.ModelFor | src-tauri/src/settings.rs:249-254 | the provider's model name; its values are stated by `Settings.ProviderTables` |
| Settings.EndpointFor | src-tauri/src/settings.rs:257-262 | the provider's endpoint URL; its values are stated by `Settings.ProviderTables` |
| Commands.ValidateShortcutKey | src-tauri/src/commands.rs:84-92 | '+' is rejected first with the multi-key message, then an unparsable key as "Invalid key"; an accepted key is the parsed one |
| Commands.ValidateShortcutKeyIsParseKey | src-tauri/src/commands.rs:84-92 | a key is accepted exactly when `parse_key` accepts it |
| Commands.MakeShortcut | src-tauri/src/commands.rs:100-107 | an empty modifier set gives a shortcut with no modifiers |
| Commands.ShortcutSettings.constructor | src-tauri/src/lib.rs:118-121 | the given shortcut and the loaded configuration |
| Commands.SettingsFile.constructor | src-tauri/src/settings.rs:73-98 | the file reads as the given settings |
| Commands.ShortcutSettings.SetShortcut | src-tauri/src/commands.rs:78-141 | a rejected key changes nothing; the old shortcut is unregistered before the new one is registered, and stays registered when unregistering fails, whose outcome is ignored; a failed registration leaves `current_shortcut`, `config` and the file unchanged; afterwards `current_shortcut` and `config` are updated, then the file as loaded gets the new shortcut; a failed save is reported with the state already updated and the file unchanged; success returns the modifiers, key and display |
| Commands.ParseProvider | src-tauri/src/commands.rs:188-192 | an accepted name is the provider's keychain name in any case |
| Commands.ParseProviderRoundTrip | src-tauri/src/commands.rs:188-192 | each provider is accepted under its name, and only "openai" and "groq", in any case, are accepted |
| Commands.ParseProviderExamples | src-tauri/src/commands.rs:275-279 | "OpenAI" and "groq" are accepted; "whisper" is not |
| Commands.KeyStatusPrecedence | src-tauri/src/commands.rs:155-179 | configured means keychain or environment; the source is "keychain" if the key is there, else "env", else none |
| Commands.KeyStatus | src-tauri/src/commands.rs:155-179 | a provider has a source exactly when it is configured, and a keychain entry makes it configured with source "keychain" |
| Commands.EnvOnlyKeyIsReportedButNotUsable | src-tauri/src/commands.rs:155-179 | a key that is only in the environment is reported as configured, although the keychain lookup finds nothing |
| Commands.ApiKeyAction | src-tauri/src/commands.rs:187-217 | an unknown provider is an error; for a known one the key is trimmed: an empty key means delete; a key with the provider's prefix is stored trimmed; any other key is refused with that provider's prefix message |
| Commands.SetApiKey | src-tauri/src/commands.rs:186-220 | succeeds exactly when the input is valid and the keychain call succeeds; a failed keychain call is reported with its message and the keychain unchanged; success returns the status of the updated keychain |
| Commands.SetApiKeyRejectionLeavesKeychain | src-tauri/src/commands.rs:188-213 | a rejected provider or key format leaves the keychain as it was |
| Commands.SetApiKeySuccess | src-tauri/src/commands.rs:194-219 | success stores the trimmed, prefixed key, or removes the entry when the trimmed key is empty; the other provider's entry is untouched; the returned status shows the provider configured exactly when a key was stored or its environment variable is set |
| Commands.ApiKeyExampleStore | src-tauri/src/commands.rs:188-216 | "OpenAI" with " sk-abc " stores "sk-abc" |
| Commands.ApiKeyExampleWrongPrefix | src-tauri/src/commands.rs:207-211 | a Groq key starting "sk-" is refused |
| Commands.ApiKeyExampleBlank | src-tauri/src/commands.rs:194-198 | a blank key deletes |
| Commands.ApiKeyExampleUnknown | src-tauri/src/commands.rs:188-192 | an unknown provider is refused |
| Commands.SettingsState.constructor | src-tauri/src/lib.rs:122-124 | the state holds the settings loaded at startup |
| Commands.SettingsState.GetTranscriptionSettings | src-tauri/src/commands.rs:254-266 | the name returned parses back to the selected provider, and the model is that provider's model |
| Commands.SettingsState.SetTranscriptionProvider | src-tauri/src/commands.rs:268-293 | an unknown name, or a provider with no keychain key, is refused with nothing changed; otherwise the provider is selected in memory and the whole in-memory settings replace the file; a failed save leaves the file unchanged; the reply echoes the name with the provider's model |
| Commands.SettingsState.SetTranscriptionProviderReloading | src-tauri/src/commands.rs:268-293 | the same checks and in-memory selection, but the file as loaded gets only the new provider |
| Commands.ValidateProvider | src-tauri/src/commands.rs:275-284 | a provider name is accepted exactly when it is known and the keychain holds its key, with the unknown-provider error first |
| Commands.ShortcutThenProvider | src-tauri/src/commands.rs:132-134 | after a successful shortcut change and then a successful provider change, the file holds the shortcut loaded at startup, not the one just set |
| Commands.ShortcutThenProviderReloading | src-tauri/src/commands.rs:132-134 | with the reloading provider change the file ends with both the new shortcut and the new provider |
| Commands.SaturatingSub | src-tauri/src/commands.rs:51-52 | `i32::saturating_sub`: exact within range, otherwise clamped to the i32 bounds |
| Commands.ClampToScreen | src-tauri/src/commands.rs:51-52 | the result is at most the bound, not negative when the bound is not, and an in-range value is kept |
| Commands.ResizeKeepsWindowOnScreen | src-tauri/src/commands.rs:45-55 | when the window fits, the clamped position keeps all of it on the display, and a window already on screen does not move |
| Commands.ResizePosition | src-tauri/src/commands.rs:45-55 | the x coordinate is within `0..screen width - 320` when the window fits, the y coordinate within `0..screen height - height`, and a coordinate already in range is kept |
| Window.ShowWindowX | src-tauri/src/window.rs:5-7 | `x - 160`, but never less than 10 |
| Window.Clamp | src-tauri/src/window.rs:41-42 | `max(lo).min(hi)`: at most `hi`, at least `lo` when `lo <= hi`, and within range it is the value |
| Window.PlacementNearMouse | src-tauri/src/window.rs:22-30 | 8 pixels right of the mouse; 48 pixels above it when the result is at least 4, else 4 pixels below; (100, 100) when the mouse position is unavailable |
| Window.IndicatorPosition | src-tauri/src/window.rs:32-44 | the coordinates are at most `screen - 40`, and at least 4 whenever `screen - 40 >= 4` |
| Window.IndicatorAboveRightOfMouse | src-tauri/src/window.rs:22-44 | away from the display edges the indicator sits exactly at `(mx + 8, my - 48)` |
| Window.CreateIndicatorWindow | src-tauri/src/window.rs:18-78 | an existing indicator is reused, giving `(Some, false)`, and told it is recording; otherwise one is built, giving `(Some, true)`, or the build fails, giving `(None, false)` with no change |
| Window.IndicatorEffects | src-tauri/src/window.rs:18-78 | the log entries of showing the indicator: an existing one is moved and told it is recording, a new one is built, a failed build logs nothing |
| Window.DestroyIndicatorWindow | src-tauri/src/window.rs:80-84 | afterwards there is no indicator |
| Paste.CopyResult | src-tauri/src/paste.rs:13-28 | a copy is reported as failed exactly when pbcopy could not be spawned, written to or waited for, each with its own message; a pbcopy that exits with a failure status is still reported as a success |
| Paste.ActivationResult | src-tauri/src/paste.rs:50-61 | `ScriptResult` with the activation's spawn message |
| Paste.ScriptResult | src-tauri/src/paste.rs:50-61 | an osascript run succeeds exactly when it ran and exited successfully; a spawn failure is reported behind its prefix, a failure status as "AppleScript error: " with the stderr |
| Paste.KeystrokeResult | src-tauri/src/paste.rs:70-82 | `ScriptResult` with the keystroke's spawn message |
| Paste.ActivateOutcome | src-tauri/src/paste.rs:39-64 | an id outside the whitelist is refused before anything runs; otherwise the script's outcome decides |
| Paste.ActivateScriptQuotesOnlyTheId | src-tauri/src/paste.rs:40-48 | for a whitelisted id the script holds exactly two double quotes, the ones around the id, and no backslash |
| Paste.BundleIdExamples | src-tauri/src/paste.rs:40-46 | the empty id and a dotted id pass; ids with a quote, a space or a non-ASCII letter do not |
| Paste.GetClipboard | src-tauri/src/paste.rs:6-11 | the clipboard's text, or empty when pbpaste cannot run |
| Paste.CopyToClipboard | src-tauri/src/paste.rs:13-28 | the clipboard holds the text exactly when pbcopy ran and succeeded; the result is `CopyResult`, which does not look at pbcopy's exit status |
| Paste.ActivateAppFast | src-tauri/src/paste.rs:39-64 | a rejected id runs nothing; otherwise the activation script runs once |
| Paste.ActivateApp | src-tauri/src/paste.rs:31-36 | errors from `activate_app_fast` are passed on unchanged |
| Paste.KeystrokeThenRestore | src-tauri/src/paste.rs:70-86 | sends Cmd+V and then, unless osascript could not be spawned, writes the saved contents back; the clipboard holds them when that pbcopy succeeded |
| Paste.SetClipboardAndPaste | src-tauri/src/paste.rs:66-89 | log, clipboard and result as `SetClipboardAndPasteRun` describes |
| Paste.PasteToApp | src-tauri/src/paste.rs:92-116 | log, clipboard and result as `PasteToAppRun` describes |
| Paste.CopyFailureSendsNothing | src-tauri/src/paste.rs:66-95 | when the copy fails, the copy error is returned, no keystroke or activation runs, and the clipboard is unchanged |
| Paste.RestoredAfterKeystroke | src-tauri/src/paste.rs:76-113 | once the keystroke script has run, after both failure and success, the last clipboard write puts back the saved contents, and the clipboard holds them exactly when that pbcopy succeeded |
| Paste.SetClipboardAndPasteRestores | src-tauri/src/paste.rs:66-89 | once pbcopy ran, a keystroke that ran followed by a successful restore leaves the saved contents; otherwise the clipboard keeps what the copy left, which is the transcript when pbcopy succeeded; the result is `Ok` exactly when the keystroke ran and succeeded |
| Paste.PasteToAppOrder | src-tauri/src/paste.rs:92-113 | the steps run in the order save, copy, activate, keystroke; if activation fails, nothing more runs and the clipboard keeps what the copy left; after a keystroke and a successful restore the clipboard holds the saved contents |
| Paste.PasteRunsOnlyRunCommands | src-tauri/src/paste.rs:66-116 | both pastes only run commands, and read the clipboard once, first |
| Paste.ActivateScriptIsNotKeystroke | src-tauri/src/paste.rs:48-72 | the activation script is never the keystroke script |
| Paste.UncheckedCopyStatusReportsSuccess | src-tauri/src/paste.rs:13-28 | a pbcopy that fails after reading the transcript still lets the paste send Cmd+V and report success, while the clipboard keeps its old contents |
| Paste.ValidBundleId | src-tauri/src/paste.rs:40-46 | the whitelist: every character is an ASCII letter or digit, '.' or '-'; `Paste.ActivateScriptQuotesOnlyTheId` and `Paste.BundleIdExamples` state what it admits |
| Text.LowerChar | src-tauri/src/settings.rs:106 | A-Z become a-z, KELVIN SIGN becomes 'k', and every other character is left as it is |
| Text.ToLower | src-tauri/src/settings.rs:119 | character-wise lower-casing of the same length |
| Text.ToLowerIdempotent | src-tauri/src/settings.rs:119 | lower-casing twice is lower-casing once |
| Text.LowerOfLower | src-tauri/src/settings.rs:119 | a name with no upper-case letter and no KELVIN SIGN, such as every table entry, is its own lower-case form |
| Text.LowerOfUpper | src-tauri/src/settings.rs:229 | upper-casing a lower-case key name and lower-casing it again gives the name back |
| Text.ToUpper | src-tauri/src/settings.rs:229 | character-wise upper-casing of ASCII letters |
| Text.TrimStart | src-tauri/src/transcription.rs:64 | drops exactly the leading whitespace |
| Text.TrimEnd | src-tauri/src/transcription.rs:64 | drops exactly the trailing whitespace |
| Text.TrimStartDrops | src-tauri/src/transcription.rs:64 | leading whitespace before a rest that does not start with whitespace is exactly what `trim_start` drops |
| Text.TrimEndDrops | src-tauri/src/transcription.rs:64 | trailing whitespace after a rest that does not end with whitespace is exactly what `trim_end` drops |
| Text.TrimOfTrimmed | src-tauri/src/transcription.rs:64 | a string with no whitespace at either end is unchanged by trimming |
| Text.TrimIdempotent | src-tauri/src/transcription.rs:64 | a trimmed string has no whitespace at either end, and trimming twice is trimming once |
| Text.Trim | src-tauri/src/transcription.rs:64 | the result is no longer than the input, has no whitespace at either end, and is empty exactly when the input is all whitespace |
| Text.TrimSurrounded | src-tauri/src/commands.rs:194 | whitespace around a string that has none at its ends is exactly what trimming removes |
| Text.NatToString | src-tauri/src/transcription.rs:56 | decimal digits with no leading zero |

## Left out

- Threads, channels and sleeps: the audio worker thread, the level-polling thread (with its ready handshake and 3000 ms timeout), `block_on`, and the 50 ms and 100 ms pauses. Release sets a flag; the thread that watches it is not modelled.
- `Recording.Inputs`: each `is_recording` read in `handle_recording_stop` is an input rather than `Host.isRecording`. Another thread can change the flag between reads, so any answer is possible.
- Float arithmetic: channel averaging, i16/u16 normalisation, RMS and level scaling, the WAV sample cast, the tray icon's retina choice, and f64 window sizes. Samples are abstract integers, and a level bar records the chunk it was computed from.
- I/O is an input outcome throughout: cpal devices, WAV writing and temp-file naming, the HTTP exchange and JSON decoding, process spawning, and the success of each settings-file write. The file's JSON form, and its fallback to the defaults when it is missing or unparsable, are not modelled.
- `Audio.RecordingWorker.Stop`: the channel errors "Failed to send stop command" and "Failed to receive result" are not modelled, because the modelled worker always answers.
- Keychain access (keychain.rs) is a map lookup. cursor.rs is not part of this model: the frontmost application and the mouse position are inputs, and `prompt_accessibility_once` is omitted.
- Tauri plumbing is omitted: tray and menu building, the tray click handler, webview creation and focus, the `indicator-ready` listener, and event transport. Emitted events are log entries, and their transport errors are ignored, as in the source.
- Commands that only pass values through are not modelled separately:
  - `get_transcription` and `get_recording_status` read `Host` fields;
  - `copy_to_clipboard` and `paste_text` are `Paste.CopyToClipboard` and `Paste.SetClipboardAndPaste`;
  - `hide_window` and `get_shortcut` have no logic worth stating.
- `get_available_providers` is not modelled: it is a fixed list, and its availability flags are `Settings.ApiKeyFor`.
- `Text.LowerChar`: Unicode case mapping is modelled only for characters whose lower-case form is ASCII, which is all the ASCII-literal comparisons can observe.
- `Transcription.StatusText`: the reason phrase of a status code is an input.
- `Transcription.ClassifyFailure`: for other statuses, the contract pins the prefix and the raw body at the end, not the reason phrase in between.
- `Commands.ResizeKeepsWindowOnScreen`: it needs the height already cast to `i32`; the float-to-int cast is left out.
- `Settings.FormatShortcutDisplay`: a key without a symbol is shown lower-cased as `Text.LowerChar` does it and then upper-cased on ASCII letters only. Rust upper-cases all of Unicode, so a non-ASCII key name kept in settings.json (`load_settings` accepts any key) can be displayed differently, for example 'é' or 'ß'.
- `Text.ToUpper`: only 'a'..'z' are upper-cased; Rust's `str::to_uppercase` also maps non-ASCII letters, some of them to several characters.
- `Window.ShowWindowX`, `Window.PlacementNearMouse`, `Window.IndicatorPosition`, `Window.Clamp`: coordinates are unbounded integers. window.rs computes them in plain `i32` (window.rs:7, 25-29 and 41-42), whose overflow on extreme positions or display sizes is not modelled.
- `Paste.CopyToClipboard`: the exit status of pbcopy is an input (`Copied(exitOk)`). What pbcopy does to the clipboard on a failing exit is simplified to nothing.
- Logging (`tracing`, `eprintln!`) and file-metadata logging are omitted.

## Findings

| source | as written | input that shows it | evidently intended | confidence | as-written member | corrected member |
|---|---|---|---|---|---|---|
| src-tauri/src/commands.rs:286-287 | `set_transcription_provider` writes the whole in-memory `SettingsState.settings`, which still holds the shortcut loaded at startup (lib.rs:106-124), over settings.json | `set_shortcut` with a new valid key, then `set_transcription_provider("groq")` with a Groq key in the keychain, both succeeding: settings.json is left with the startup shortcut, and the next launch registers the old one | reload the file and change only the provider, as `set_shortcut` does at commands.rs:132-134 | not executed | Commands.ShortcutThenProvider | Commands.ShortcutThenProviderReloading |
