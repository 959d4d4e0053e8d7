# Whisper speech typing: recorder and hotkey control, in Dafny

This project models the core of a push-to-talk dictation tool. The user holds
a hotkey and speaks. The speech is transcribed and typed into the focused
application. A short pre-roll keeps the first syllable from being clipped.

The model covers:

- **Recorder** (`recorder.py`). The audio callback sends each chunk either to
  the frames of the recording in progress or to a ring of the last 8 chunks.
  Starting a capture splices the ring into the frames. Stopping a capture
  concatenates the frames into mono, 16-bit, 16 kHz audio. The capture logic
  is a pure state machine (`Recording.OnChunk`, `OnStart`, `OnStop`,
  `Deliver`). The class `Recording.Recorder` has the source's fields, and
  each of its capture methods is proved against one of those functions.
- **Hotkey handler**, in both versions. The newer one
  (`src/hotkeyhandler.py`, module `Hotkeys`) has a keyboard lock and a
  heartbeat that re-registers the hotkeys. The older one (`hotkeyhandler.py`,
  module `LegacyHotkeys`) post-processes the transcript itself. The hotkey
  registrations are tracked per handler, as a set of bindings; the lock is a
  flag, and the status queue is a sequence. The transcriber is a function from
  captured audio to text, and the text typer is a log of typing requests.
- **Transcript text** (module `Text`). This covers Python's `isspace`,
  `lstrip`, and `post_process`. It also covers how each transcriber version
  joins segment texts: the older one with single spaces, the newer one with
  no separator followed by the `post_process` normalisation.
- **Transcriber model lifecycle** (module `Transcribers`). Loading is
  idempotent, and a rejected compute type falls back to `float32`. `stop`
  releases the model, and the newer version reloads it on demand.
- **Hotkey recorder** (`src/hotkeysaver.py`, module `HotkeyCapture`). Key
  events are tracked in two sets. The recording finishes when the last held
  key is released.
- **Status queue** (`whisperqueue.py`), **settings** (`configmanager.py`),
  and the **application shell's** status-to-icon lookup, window switch and
  enabled flag (`whisperspeechtyping.py`).

The main results:

- `Recording.NoLossNoDuplication`: over one start/stop cycle, the captured
  audio is the spliced pre-roll followed by every chunk that arrived while
  recording, each once and in order.
- `Recording.PrerollSplice` and `Recording.RingEviction`: the ring keeps the
  newest 8 chunks in order.
- The `Text` lemmas: `post_process` is idempotent and has an exact
  characterisation.
- `HotkeyCapture.ChordRecorded`: pressing a chord and then releasing it in
  any order records exactly the keys that were seen.
- The handlers' contracts: start and stop are idempotent, and each
  press/release emits its status messages in order.

Some behaviours of the code that the model keeps as they are:

- Blank transcriptions are still typed. The code always calls the typer, even
  with `""`; it does not skip typing.
- `Recorder.start_audio_capture` has no guard against a second start. The
  guard is in the handler's `start_recording`.
- `stop` is not terminal. A later `start` on the newer handler registers the
  hotkeys again.
- Retype is always available. It types the stored transcript, which may be
  `""`.
- A capture without pre-roll starts with empty frames.
- A stopped capture keeps its frames. A release with no processed press
  since the previous release hands the previous session's audio off again
  (see "## Findings").

## Model

| member | source | states |
|---|---|---|
| Common.Flatten | recorder.py:57 | joining no parts gives the empty sequence, and joining one part gives that part |
| Common.FlattenAppend | recorder.py:57 | joining a list made of two lists is joining each and concatenating |
| Common.FlattenPart | recorder.py:57 | every frame occurs whole in the joined audio, after the frames before it and before the frames after it |
| Common.LastN | recorder.py:18 | the retained items are the last min(len, n) items, and the input is the dropped prefix followed by them |
| Common.LastNAppend | recorder.py:18 | bounding the queue after each append gives the same result as bounding it once at the end |
| Recording.RingAppend | recorder.py:37 | appending to the ring keeps at most 8 chunks, the newest ones in arrival order, and a full ring loses its oldest chunk |
| Recording.Initial | recorder.py:12-29 | a new recorder is idle with empty frames and ring, and its stream runs from the start exactly in buffered mode |
| Recording.OnChunk | recorder.py:31-38 | a chunk goes to the frames when recording and to the ring otherwise; the other buffer is unchanged |
| Recording.OnStart | recorder.py:40-49 | buffered: the frames become the ring in order and the ring is emptied; unbuffered: the frames are emptied and the stream is started; either way recording is on |
| Recording.OnStop | recorder.py:52-56 | recording is off, the stream is stopped only in unbuffered mode, and frames and ring are kept |
| Recording.PayloadOf | recorder.py:57-68 | the audio is 1 channel, 2-byte samples at 16000 Hz, holding every frame in order; no frames give empty audio |
| Recording.DeliverWhileIdle | recorder.py:33-37 | chunks arriving while idle only feed the ring, which keeps the newest 8 |
| Recording.DeliverWhileRecording | recorder.py:33-35 | chunks arriving while recording are appended to the frames, each once and in order, and the ring is untouched |
| Recording.RingEviction | recorder.py:18 | after more than 8 chunks arrive, the ring holds exactly the newest 8 |
| Recording.PrerollSplice | recorder.py:42-45 | on a pre-roll recorder, a start begins the recording with the last min(n, 8) chunks that arrived while idle, and empties the ring |
| Recording.NoLossNoDuplication | recorder.py:33-57 | the audio of one start/stop cycle is the spliced pre-roll (buffered mode only) followed by every chunk delivered while recording, in order |
| Recording.BlankCapture | recorder.py:57-64 | a stop right after a start with nothing buffered gives an empty but well-formed 1-channel, 16-bit, 16 kHz payload |
| Recording.Recorder.constructor | recorder.py:12-29 | fields as in Recording.Initial, and the stream is open |
| Recording.Recorder.AudioCallback | recorder.py:31-38 | the chunk is appended to exactly one of frames or ring, and the ring stays bounded |
| Recording.Recorder.StartAudioCapture | recorder.py:40-49 | the new state is OnStart of the old one |
| Recording.Recorder.StopAudioCapture | recorder.py:52-68 | the new state is OnStop of the old one; the returned audio is PayloadOf the frames |
| Recording.Recorder.TakeAudioCapture | recorder.py:52-68 | corrected stop: the returned audio is PayloadOf the frames, and the new state is OnStop of the old one with the frames cleared |
| Recording.ClearedFramesUnseenByStart | recorder.py:40-49 | clearing the frames at stop changes nothing for the next start, since both branches of a start overwrite the frames |
| Recording.Recorder.Close | src/hotkeyhandler.py:61-62 | the stream is closed and no longer running; the buffers are kept |
| Text.IsSpace | localtranscriber.py:42 | Python's `isspace`: the space, tab, newline and carriage return are whitespace; ASCII letters and digits are not |
| Text.LStrip | localtranscriber.py:46 | `lstrip` never lengthens the text, and a non-empty result does not start with whitespace |
| Text.LStripSpec | localtranscriber.py:46 | lstrip keeps a suffix, removes only whitespace, and leaves no leading whitespace |
| Text.LStripEmpty | localtranscriber.py:46 | lstrip gives "" exactly for whitespace-only strings |
| Text.LStripAppend | localtranscriber.py:42-46 | text appended after a non-whitespace character survives lstrip |
| Text.TrailingSpace | localtranscriber.py:42-43 | a space is added exactly when the text is non-empty and its last character is not whitespace |
| Text.PostProcess | localtranscriber.py:40-46 | post_process adds at most one character; its meaning is stated by Text.PostProcessShape and Text.PostProcessNormalised |
| Text.PostProcessNormalised | localtranscriber.py:40-46 | the output never starts with whitespace, a non-empty output ends with whitespace, and the output is "" exactly for whitespace-only input |
| Text.PostProcessShape | localtranscriber.py:40-46 | the output is lstrip of the input, plus one space exactly when the input is non-empty and does not end in whitespace |
| Text.PostProcessBlank | localtranscriber.py:42-46 | "" and every whitespace-only input give "" |
| Text.PostProcessIdempotent | localtranscriber.py:40-46 | applying post_process twice is the same as applying it once |
| Text.JoinWithSpace | localtranscriber.py:35 | a single segment is returned unchanged |
| Text.JoinWithSpaceLength | localtranscriber.py:35 | the joined text has every segment's characters plus one separator between neighbours |
| Text.JoinWithSpaceAppend | localtranscriber.py:35 | joining two segment lists puts exactly one space between the two joined halves |
| Text.TranscribeLegacy | localtranscriber.py:30-38 | no segments give ""; otherwise the length is all segment texts plus one space per gap |
| Text.Transcribe | src/localtranscriber.py:20-34 | no segments give "" |
| Text.TranscribeNormalised | src/localtranscriber.py:26-32 | the transcript never starts with whitespace, a non-empty one ends with whitespace, and it is "" exactly when the concatenated segments are whitespace only |
| Text.TranscribeShape | src/localtranscriber.py:26-32 | the transcript is lstrip of the concatenated segments plus one space exactly when the concatenation ends in a non-whitespace character |
| Text.TranscribeAllEmpty | src/localtranscriber.py:26-32 | segments whose texts are all empty give "", with no space appended |
| Text.TranscribeSingle | src/localtranscriber.py:26-32 | for one segment, the newer transcript equals the older transcript after post_process |
| Text.Upper | src/hotkeysaver.py:31 | upper-casing keeps the length and maps each character to its upper case |
| Text.UpperIdempotent | src/hotkeysaver.py:31 | an upper-cased hotkey has no lower-case letters, and upper-casing it again changes nothing |
| Messaging.WhisperQueue.constructor | whisperqueue.py:5-6 | a new queue is empty |
| Messaging.WhisperQueue.SendMessage | whisperqueue.py:8-9 | exactly one record is appended, carrying the given status, component and message; earlier records keep their order |
| Messaging.WhisperQueue.Size | whisperspeechtyping.py:74 | the size is zero exactly when the queue is empty |
| Messaging.WhisperQueue.Get | whisperspeechtyping.py:74-75 | the oldest record is taken, and the rest keep their order |
| Messaging.SendOrderIsReceiveOrder | whisperqueue.py:1-9 | records sent A, B, C to an empty queue are received A, B, C |
| Typing.TextTyper.TypeText | texttyper.py:10-19 | one paste request for the text is logged |
| Typing.TextTyper.SafeTypeText | texttyper.py:32-33 | one key-by-key typing request for the text is logged |
| Hotkeys.HandlerBindings | src/hotkeyhandler.py:64-69 | exactly three bindings, all suppressed: press of the hotkey starts recording, release of the hotkey stops it, and press of the retype hotkey retypes |
| Hotkeys.HotkeyHandler.constructor | src/hotkeyhandler.py:9-20 | a new handler is running with its three bindings, an empty transcript, a free lock, and one "ready" message sent |
| Hotkeys.HotkeyHandler.StartRecording | src/hotkeyhandler.py:22-27 | does nothing while recording; otherwise takes the lock, sends "recording", and starts the capture |
| Hotkeys.HotkeyHandler.StopRecording | src/hotkeyhandler.py:29-36 | releases the lock if held, stops the capture, stores the transcription of the captured audio, sends transcribing/typing/ready in order, and pastes the transcript once |
| Hotkeys.HotkeyHandler.StopRecordingOnce | src/hotkeyhandler.py:29-36 | corrected release: as StopRecording, but the capture is taken with TakeAudioCapture, so the recorder's frames are cleared afterwards |
| Hotkeys.HotkeyHandler.TypeTranscription | src/hotkeyhandler.py:38-41 | sends "typing", pastes the stored transcript, then sends "ready" |
| Hotkeys.HotkeyHandler.RetypeTranscription | src/hotkeyhandler.py:43-46 | sends "typing", types the stored transcript key by key, then sends "ready"; the recorder is not in its frame |
| Hotkeys.HotkeyHandler.Start | src/hotkeyhandler.py:48-53 | does nothing when running; otherwise registers the three bindings and sends one "ready" |
| Hotkeys.HotkeyHandler.Stop | src/hotkeyhandler.py:55-63 | does nothing when stopped; otherwise clears running, removes all bindings, stops the capture, closes the stream, and sends exactly one "disabled" |
| Hotkeys.HotkeyHandler.RegisterHotkeys | src/hotkeyhandler.py:64-69 | adds exactly the handler's three bindings |
| Hotkeys.HotkeyHandler.HeartbeatRebind | src/hotkeyhandler.py:77-79 | after unhooking and registering again, the bindings are exactly the three, whether or not the handler runs |
| Hotkeys.HotkeyHandler.HeartbeatIteration | src/hotkeyhandler.py:72-79 | while running, an iteration leaves exactly the three bindings, whatever was registered before; when stopped, it changes nothing |
| Hotkeys.PressAndRelease | src/hotkeyhandler.py:22-41 | one press and release on an idle handler emits recording, transcribing, typing, ready in order, transcribes the audio captured from the start, and pastes once |
| Hotkeys.ReleaseWithoutPress | src/hotkeyhandler.py:29-36 | a release whose press was never processed takes no lock, and it transcribes and pastes once whatever frames the recorder still holds |
| Hotkeys.RepeatedRelease | src/hotkeyhandler.py:29-36 | as written: press, release, then a second release pastes the session's transcript twice |
| Hotkeys.RepeatedReleaseOnce | src/hotkeyhandler.py:29-36 | as intended: the session's transcript is pasted once, and the second release pastes the transcript of an empty capture |
| Hotkeys.RebindAfterRelease | src/hotkeyhandler.py:64-79 | a heartbeat after a press/release leaves the release binding registered |
| Hotkeys.StopDuringHeartbeatSleep | src/hotkeyhandler.py:73-79 | a stop during the heartbeat's sleep leaves the three bindings registered on a stopped handler |
| Hotkeys.StopThenHeartbeat | src/hotkeyhandler.py:55-79 | with the corrected iteration, a stopped handler stays unhooked |
| LegacyHotkeys.LegacyBindings | hotkeyhandler.py:40-42 | exactly three bindings, all suppressed: press of the hotkey starts recording, release stops it, and the retype hotkey is bound to plain (pasting) typing |
| LegacyHotkeys.HotkeyHandler.constructor | hotkeyhandler.py:8-17 | a new handler is not running, has an empty transcript, and registers nothing |
| LegacyHotkeys.HotkeyHandler.StartRecording | hotkeyhandler.py:19-22 | does nothing while recording; otherwise sends "recording" and starts the capture |
| LegacyHotkeys.HotkeyHandler.StopRecording | hotkeyhandler.py:24-29 | the transcript is post_process of the transcription of the captured audio; sends transcribing/typing/ready in order and pastes once |
| LegacyHotkeys.HotkeyHandler.TypeTranscription | hotkeyhandler.py:31-34 | sends "typing", pastes the stored transcript, then sends "ready" |
| LegacyHotkeys.HotkeyHandler.Start | hotkeyhandler.py:36-43 | does nothing when running; otherwise registers the three bindings and sends one "ready" |
| LegacyHotkeys.HotkeyHandler.Stop | hotkeyhandler.py:45-52 | does nothing when stopped; otherwise removes all bindings, stops and closes the capture, and sends exactly one "disabled" |
| LegacyHotkeys.TranscriptIsNormalised | hotkeyhandler.py:27-28 | the typed transcript never starts with whitespace, and a non-empty one ends with whitespace |
| Transcribers.LoadedComputeType | src/localtranscriber.py:51-57 | the configured compute type is kept when the library accepts it, and is "float32" otherwise |
| Transcribers.LocalTranscriber.constructor | src/localtranscriber.py:10-18 | settings are stored and no model is loaded yet |
| Transcribers.LocalTranscriber.Start | src/localtranscriber.py:46-57 | a loaded model is left unchanged; otherwise a model is loaded, falling back to "float32" |
| Transcribers.LocalTranscriber.Stop | src/localtranscriber.py:42-44 | the model is released |
| Transcribers.LocalTranscriber.TranscribeAudio | src/localtranscriber.py:20-34 | a model is loaded first if there is none, and the result is the normalised transcript of the segments |
| Transcribers.StopThenTranscribe | src/localtranscriber.py:20-23 | after stop, transcribing loads the model again and still gives the transcript |
| Transcribers.LegacyLocalTranscriber.constructor | localtranscriber.py:8-20 | the model is loaded at construction, falling back to "float32" |
| Transcribers.LegacyLocalTranscriber.TranscribeAudio | localtranscriber.py:30-38 | the result is the space-joined segment texts, or "" for no segments |
| Transcribers.LegacyLocalTranscriber.Stop | localtranscriber.py:52-54 | the model is released |
| HotkeyCapture.HandleHook | src/hotkeysaver.py:12-25 | key-down adds the key to the held and seen sets; key-up removes it from the held set only; releasing the last held key records the name of the seen keys, resets them, unhooks, and sets done; held keys stay a subset of seen keys |
| HotkeyCapture.PressAll | src/hotkeysaver.py:14-16 | pressing keys, repeats included, adds exactly those keys to both sets |
| HotkeyCapture.ReleaseAll | src/hotkeysaver.py:17-25 | releasing each held key once finishes exactly at the last release, recording the seen keys |
| HotkeyCapture.ChordRecorded | src/hotkeysaver.py:12-25 | pressing a chord and releasing it in any order records exactly the keys seen and leaves no key held or seen |
| HotkeyCapture.HotkeySaver.constructor | src/hotkeysaver.py:6-10 | a new saver has empty key sets, an empty hotkey string, and no done flag |
| HotkeyCapture.HotkeySaver.HandleEvent | src/hotkeysaver.py:12-25 | the new state is HandleHook of the old one, and held keys stay a subset of seen keys |
| HotkeyCapture.HotkeySaver.Hook | src/hotkeysaver.py:28 | the hook is installed; nothing else changes |
| HotkeyCapture.HotkeySaver.AwaitHotkey | src/hotkeysaver.py:29-31 | returns the recorded hotkey in upper case and clears the done flag |
| Config.Defaults | configmanager.py:14-22 | there are seven default settings, and `active_gui` is not among them |
| Config.DefaultsExactly | configmanager.py:13-22 | the defaults are exactly the seven keys with values large-v2, cuda, float16, en, f4, f2, true |
| Config.LoadConfig | configmanager.py:9-22 | the file's settings when a file exists, the defaults otherwise |
| Config.ConfigManager.constructor | configmanager.py:4-6 | the settings are those loaded from the file, or the defaults |
| Config.ConfigManager.GetSetting | configmanager.py:29-30 | a key's value, or none when the key is absent |
| Config.ConfigManager.SaveSettings | configmanager.py:24-27 | the file and the current settings both become the given map |
| Config.ConfigManager.UpdateSetting | configmanager.py:32-34 | the key reads back the new value, every other key is unchanged, and reloading the file gives the current settings |
| App.StatusToIcon | whisperspeechtyping.py:79-91 | every status shows an icon from the table, and a status in the table shows its own icon |
| App.IconOfStatus | whisperspeechtyping.py:79-91 | recording, ready and typing have their own icons; transcribing, starting, stopping and loading show the wait icon; every other status, including disabled, shows the disabled icon; each case holds in both directions |
| App.InitialGui | whisperspeechtyping.py:31-34 | the floating window opens exactly when the active_gui setting is "floating" |
| App.GuiSetting | whisperspeechtyping.py:102-105 | the floating window is recorded as "floating" and the system tray as "systemtray", each exactly |
| App.GuiSettingRoundTrip | whisperspeechtyping.py:98-106 | the setting recorded for a window reopens that window |
| App.WhisperTypingApp.constructor | whisperspeechtyping.py:19-39 | the window comes from the setting, and typing is enabled |
| App.WhisperTypingApp.SwitchGui | whisperspeechtyping.py:98-106 | the other window becomes active and is recorded in the settings, so a restart reopens it |
| App.WhisperTypingApp.StartTyping | whisperspeechtyping.py:118-122 | enabled is set |
| App.WhisperTypingApp.StopTyping | whisperspeechtyping.py:124-131 | enabled is cleared |
| App.WhisperTypingApp.StartStopTyping | whisperspeechtyping.py:112-116 | enabled is flipped |
| App.WhisperTypingApp.Restart | whisperspeechtyping.py:107-110 | enabled is true afterwards, whatever it was before |
| App.WhisperTypingApp.CloseApplication | whisperspeechtyping.py:133-137 | typing is disabled and the display loop is told to quit |
| App.SwitchTwice | whisperspeechtyping.py:98-106 | two switches bring the original window back, and the setting then records that window, whatever it held before |

## Left out

- Audio device handling, whose state is reduced to two flags. Opening PyAudio, device errors, and `start_stream`/`stop_stream`/`close`/`terminate` become `streamRunning` and `streamOpen`.
- The WAV container bytes written by the `wave` module. The payload is the concatenated 16-bit samples plus channel, sample-width and rate metadata.
- Concurrency. Each callback, hotkey edge and heartbeat iteration is one atomic step. The capture lock is not modelled because every step is atomic.
- Hotkeys.HotkeyHandler.Stop: unhooking waits for the keyboard lock, so the step is modelled as enabled only once the lock is free (`running ==> !lockHeld`). The same holds for Hotkeys.HotkeyHandler.Start, Hotkeys.HotkeyHandler.RegisterHotkeys, Hotkeys.HotkeyHandler.HeartbeatRebind and Hotkeys.HotkeyHandler.HeartbeatIteration.
- The heartbeat thread, its 5-second sleep, and the operating system silently dropping hooks. Only one iteration is modelled, and its result does not depend on which bindings existed before.
- Keyboard library internals (`add_hotkey`, `unhook_all_hotkeys`, `hook`). Bindings are a set, so registering the same callback twice collapses into one binding. `get_hotkey_name` is a function parameter.
- HotkeyCapture.HandleHook: `keyboard.unhook_all()` also removes the hotkey handler's registrations, so after a hotkey is recorded the newer handler stays deaf until its next heartbeat and the older one until a restart. The model keeps each component's registrations separate and clears only the saver's own hook.
- Hotkeys.HotkeyHandler.Stop: `unhook_all_hotkeys` removes every component's hotkeys in the process. The model clears only this handler's `bindings`, and likewise for LegacyHotkeys.HotkeyHandler.Stop and Hotkeys.HotkeyHandler.HeartbeatRebind.
- Speech model loading, warm-up and inference. A load is represented by whether the compute type is accepted. Inference is represented by the segment texts it yields, and the handlers see the transcriber as a function from audio to text.
- Transcribers.LocalTranscriber.Start: a second ValueError from the "float32" fallback load is not modelled.
- Transcribers.LegacyLocalTranscriber.TranscribeAudio: requires a loaded model. The source fails with an AttributeError after `stop`, and that failure is not modelled.
- Text.Upper: only ASCII letters are upper-cased. Python's Unicode case mapping is not modelled.
- The `__init__` of the newer `LocalTranscriber` starts `start` on a thread. Here the load is a separate call.
- HotkeyCapture.HotkeySaver.AwaitHotkey: the wait on the done event becomes the precondition `done`. The events that arrive during the wait are HandleEvent steps.
- Clipboard and keystroke injection in `texttyper.py`. Its `None` check and swallowed exceptions are not modelled, since the handler always passes a string.
- JSON reading and writing in `configmanager.py`. The settings file is represented by its decoded contents, and malformed-file errors are not modelled.
- App.WhisperTypingApp.constructor: `start_typing` and `stop_typing` also create and tear down the recorder, transcriber and hotkey handler. That work, the "Application initialized." message, showing and hiding windows, the polling `display_state` loop, `gc.collect`, sleeps and `quit` are UI or lifecycle glue outside this model.
- `__del__` and `main` of the handlers, which are process-lifetime glue and console output.
- All `print` output.

## Findings

| source | as written | input that shows it | evidently intended | confidence | as-written member | corrected member |
|---|---|---|---|---|---|---|
| src/hotkeyhandler.py:73-79 | the heartbeat tests `running` only before its 5-second sleep, then unhooks and re-registers the hotkeys unconditionally | `stop()` while the heartbeat sleeps (its usual state): the iteration then registers the three hotkeys again on a stopped handler, whose stream is already closed (Hotkeys.StopDuringHeartbeatSleep) | a stopped handler stays unhooked: the iteration re-registers only while running (Hotkeys.StopThenHeartbeat) | not executed; medium (depends on the thread reaching its sleep before stop, the usual case) | Hotkeys.HotkeyHandler.HeartbeatRebind | Hotkeys.HotkeyHandler.HeartbeatIteration |
| recorder.py:52-57 | `stop_audio_capture` hands back the joined frames but never clears them, and `stop_recording` (src/hotkeyhandler.py:29-36) runs on every release, whether or not its press was processed | a release with no processed press since the previous release: the previous session's audio is transcribed again and its transcript pasted a second time (Hotkeys.RepeatedRelease) | each session's audio is handed off once, so a stray release gets an empty capture (Hotkeys.RepeatedReleaseOnce, Recording.ClearedFramesUnseenByStart) | not executed; medium (needs a release whose press did not reach `start_recording`) | Recording.Recorder.StopAudioCapture | Recording.Recorder.TakeAudioCapture |
