# VibeTyping, modelled in Dafny

VibeTyping is a macOS input method for dictation:

1. A hotkey (Control-/ by default) starts recording from the microphone.
2. An energy-based voice-activity detector stops the recording once the speaker falls silent.
3. WhisperKit transcribes the captured samples.
4. When an API key is set, an OpenAI-compatible chat model optionally corrects the text.
5. The result is inserted into the text field that started the recording.

This project models that pipeline's decision logic and proves what each step promises. One Dafny module covers each Swift type:

| module | file | models |
|---|---|---|
| `Wrappers` | `wrappers.dfy` | the `Option` type |
| `Text` | `text.dfy` | `trimmingCharacters(in:)` over a predicate on characters |
| `Settings` | `settings.dfy` | `AppSettings` over a UserDefaults domain (a map from keys to typed values), with the defaults from `InputMethodConstants` |
| `Silence` | `silence_detector.dfy` | `SilenceDetector`: a pure step function `Step` and the `SilenceDetector` class whose methods follow it |
| `Recorder` | `audio_recorder.dfy` | `AudioRecorder`: the sample buffer, the installed tap and the tap handler's work on each delivered buffer |
| `Prompt` | `correction_prompt.dfy` | `CorrectionPrompt.build` |
| `Llm` | `llm_client.dfy` | `LLMClient.correctTranscription`: URL building, the request fields, and the fall-back to the raw text on every failure |
| `Whisper` | `whisper_kit_manager.dfy` | `WhisperKitManager`: the load guard, the `defer` reset, the model-folder choice, and `transcribe`'s fall-backs and join/trim |
| `Controller` | `input_controller.dfy` | `VibeTypingInputController`: the trigger test, the recording toggle, the stop pipeline and the commit target |

Several platform collaborators are given to the model as parameters:

- **Clock.** The current time (`now: real`).
- **Audio converter.** A function from PCM buffers to samples.
- **Audio platform.** Whether the target format exists and whether the engine starts.
- **WhisperKit.** Its constructor and its inference, as functions that may fail.
- **Network.** URL parsing, JSON serialisation and the HTTP exchange: a `Network` value whose `send` returns a `Response`.
- **Async work.** The asynchronous task spawned by a stop is `InputController.RunTranscriptionTask`. It runs later, as one sequential step, on the samples the stop handed over.

Behaviours of the code worth knowing:

- **Silence is not one-shot.** Once the silence timer has run out, every later quiet chunk reports silence again, until a loud chunk or a reset. `Silence.NotOneShot` proves it, and `Recorder.AudioRecorder.DeliverBuffer` fires the callback each time. The controller ignores the repeats because its main-queue handler checks `isRecording`.
- **Pressing the trigger while a transcription is running starts a new recording.** Nothing blocks the key while the earlier task is in flight.
- **`WhisperKitManager.transcribe` does not short-circuit empty samples.** The controller guards them: an empty capture never reaches transcription.
- **The commit target is read when the transcription task commits, not when the recording stops.** If a new recording starts while an earlier transcription is still running, the earlier text is inserted into the client of the new session.

Related facts the model proves:

- Every controller method keeps the invariant "no tap is installed unless recording" (`Controller.InputController.Valid`). Because of it, the controller never asks the recorder to install a second tap on the input bus.
- The trigger test uses raw modifier words as unbounded integers, with a bitwise AND defined on them (`Controller.BitAnd`). The facts about it are proved by induction on the bits.

## Model

| member | source | states |
|---|---|---|
| Settings.LlmEndpoint | VibeTyping/Settings/AppSettings.swift:11-14 | the stored string when a string is stored, otherwise "https://api.openai.com" |
| Settings.LlmApiKey | VibeTyping/Settings/AppSettings.swift:16-19 | the stored string when a string is stored, otherwise "" |
| Settings.LlmModel | VibeTyping/Settings/AppSettings.swift:21-24 | the stored string when a string is stored, otherwise "gpt-4o-mini" |
| Settings.IsLLMCorrectionEnabled | VibeTyping/Settings/AppSettings.swift:26-34 | true when the key is absent; the stored bool when one is stored |
| Settings.SilenceDuration | VibeTyping/Settings/AppSettings.swift:38-44 | always positive; the stored value when positive, otherwise 1.5 |
| Settings.CustomModelFolder | VibeTyping/Settings/AppSettings.swift:48-54 | never Some(""); set exactly when a non-empty string is stored, and then equal to it |
| Settings.TriggerKeyCode | VibeTyping/Settings/AppSettings.swift:58-62 | the stored value when positive, otherwise 44; positive; callers must keep a stored code within 16 bits, because `UInt16(val)` traps otherwise |
| Settings.TriggerModifierFlags | VibeTyping/Settings/AppSettings.swift:66-70 | the stored value when positive, otherwise the Control flag 0x40000; positive |
| Settings.KeysDistinct | VibeTyping/Settings/AppSettings.swift:11-72 | the eight keys are pairwise different, so each setter writes only its own key |
| Settings.AppSettings.constructor | VibeTyping/Settings/AppSettings.swift:5-7 | the settings object reads the given defaults domain, whatever it holds |
| Settings.AppSettings.SetLlmEndpoint | VibeTyping/Settings/AppSettings.swift:13 | writes only its key; a later read of the endpoint gives the new value and every other property is unchanged (stated for domains whose key code can be read) |
| Settings.AppSettings.SetLlmApiKey | VibeTyping/Settings/AppSettings.swift:18 | writes only its key; reads back exactly; all other properties unchanged |
| Settings.AppSettings.SetLlmModel | VibeTyping/Settings/AppSettings.swift:23 | writes only its key; reads back exactly; all other properties unchanged |
| Settings.AppSettings.SetLLMCorrectionEnabled | VibeTyping/Settings/AppSettings.swift:33 | writes only its key; reads back exactly; all other properties unchanged |
| Settings.AppSettings.SetSilenceDuration | VibeTyping/Settings/AppSettings.swift:43 | writes only its key; reads back when positive, otherwise 1.5; all other properties unchanged |
| Settings.AppSettings.SetCustomModelFolder | VibeTyping/Settings/AppSettings.swift:53 | nil removes the key; a non-empty folder reads back, "" reads as nil; all other properties unchanged |
| Settings.AppSettings.SetTriggerKeyCode | VibeTyping/Settings/AppSettings.swift:63 | writes only its key; afterwards the key code can always be read, and reads back when positive, otherwise 44; all other properties unchanged |
| Settings.AppSettings.SetTriggerModifierFlags | VibeTyping/Settings/AppSettings.swift:71 | writes only its key; reads back when positive, otherwise the Control flag; `Int(newValue)` traps above Int64, so callers must stay below 2^63 |
| Text.Trim | VibeTyping/Transcription/WhisperKitManager.swift:84-85 | the result is a contiguous piece of the input, with no dropped character at either end, and empty exactly when every character is dropped |
| Text.TrimOfTrimmed | VibeTyping/Transcription/WhisperKitManager.swift:85 | trimming a trimmed string changes nothing |
| Text.TrimKeepsInner | VibeTyping/LLM/LLMClient.swift:11 | trimming removes exactly the dropped characters around a non-empty trimmed core |
| Silence.SumOfSquares | VibeTyping/Audio/SilenceDetector.swift:20 | the sum of squares is never negative |
| Silence.SumOfSquaresBounds | VibeTyping/Audio/SilenceDetector.swift:20 | an all-zero chunk sums to 0; a chunk whose every sample exceeds the threshold in magnitude sums to more than its length times the threshold squared |
| Silence.IsLoud | VibeTyping/Audio/SilenceDetector.swift:20-22 | an all-zero chunk is never speech; a chunk whose every sample exceeds 0.01 in magnitude always is |
| Silence.Step | VibeTyping/Audio/SilenceDetector.swift:17-41 | an empty chunk changes nothing and reports no silence; a loud chunk (RMS above 0.01) sets speech-started, clears the timer and reports no silence; silence is reported only after speech, on a quiet chunk, once the timer is at least the duration old; consistency is kept |
| Silence.Run | VibeTyping/Audio/SilenceDetector.swift:17-41 | one output per chunk fed in |
| Silence.RunKeepsConsistent | VibeTyping/Audio/SilenceDetector.swift:23-33 | a timer never runs without speech having started, across any run |
| Silence.NoSilenceBeforeSpeech | VibeTyping/Audio/SilenceDetector.swift:29 | before speech, quiet chunks never report silence and never start the timer |
| Silence.QuietRunWithTimer | VibeTyping/Audio/SilenceDetector.swift:31-38 | with the timer running, each quiet chunk reports silence exactly when it is non-empty and the elapsed time reaches the duration; the timer is not moved |
| Silence.QuietRunAfterSpeech | VibeTyping/Audio/SilenceDetector.swift:31-38 | the first quiet chunk after speech starts the timer at its own time, and with a positive duration it reports no silence |
| Silence.NotOneShot | VibeTyping/Audio/SilenceDetector.swift:31-38 | with a clock that does not go back, once silence is reported every later non-empty quiet chunk reports it too |
| Silence.SilenceDetector.constructor | VibeTyping/Audio/SilenceDetector.swift:5-14 | no timer, speech not started, duration taken from the settings |
| Silence.SilenceDetector.DetectSilence | VibeTyping/Audio/SilenceDetector.swift:17-41 | the new fields and the answer are those of Step on the old fields |
| Silence.SilenceDetector.Reset | VibeTyping/Audio/SilenceDetector.swift:43-46 | back to the freshly constructed state; the duration is unchanged |
| Recorder.Converted | VibeTyping/Audio/AudioRecorder.swift:40-46 | the converter's output when a converter was created, otherwise channel 0's first frameLength samples ([] without channel data) |
| Recorder.ExtractSamples | VibeTyping/Audio/AudioRecorder.swift:111-118 | [] without channel data or with a zero frame length; otherwise exactly the first frameLength samples of channel 0 |
| Recorder.AudioRecorder.constructor | VibeTyping/Audio/AudioRecorder.swift:7-10 | empty buffer, no tap, engine stopped, fresh detector |
| Recorder.AudioRecorder.StartRecording | VibeTyping/Audio/AudioRecorder.swift:15-64 | empties the buffer and resets the detector first; without a target format, returns with no tap; otherwise installs a tap using the converter when there is one; the engine runs only if it starts |
| Recorder.AudioRecorder.DeliverBuffer | VibeTyping/Audio/AudioRecorder.swift:37-55 | an empty converted chunk leaves buffer and detector alone and fires nothing; otherwise the chunk is appended at the end and the callback fires exactly when the detector reports silence |
| Recorder.AudioRecorder.StopRecording | VibeTyping/Audio/AudioRecorder.swift:66-73 | returns the whole buffer, leaves it empty, removes the tap, stops the engine and resets the detector; so a second stop returns [] |
| Prompt.Build | VibeTyping/LLM/CorrectionPrompt.swift:9-23 | total; the user part is the transcription itself and the system part is the fixed, non-empty instruction text |
| Prompt.SystemPartIsConstant | VibeTyping/LLM/CorrectionPrompt.swift:10-20 | any two inputs get the same system part |
| Llm.RequestUrl | VibeTyping/LLM/LLMClient.swift:11-13 | ends with "/v1/chat/completions" and what comes before it is the endpoint with all leading and trailing '/' removed |
| Llm.DefaultRequestUrl | VibeTyping/LLM/LLMClient.swift:11-13 | the default endpoint, with or without a trailing '/', yields https://api.openai.com/v1/chat/completions |
| Llm.MaxTokens | VibeTyping/LLM/LLMClient.swift:33 | at least 200 and at least three per character, and equal to one of the two |
| Llm.ChatBodyFor | VibeTyping/LLM/LLMClient.swift:24-34 | the configured model, exactly two messages (system prompt, then the raw text as user), temperature 0.3, max_tokens exactly MaxTokens of the raw text |
| Llm.ChatRequest | VibeTyping/LLM/LLMClient.swift:18-37 | a POST to the URL with exactly the JSON content-type and the bearer header carrying the stored key, a 10 s timeout, and the body for the raw text |
| Llm.ExtractContent | VibeTyping/LLM/LLMClient.swift:57-60 | content is found exactly when "choices" is a non-empty array of objects only whose first has a "message" object with a "content" string, and it is that string |
| Llm.ExtractAnswerWithOtherFields | VibeTyping/LLM/LLMClient.swift:57-60 | an answer with any further fields at the top, in the choice and in the message, and with further choices, gives back the first choice's content |
| Llm.ChoicesMustAllBeObjects | VibeTyping/LLM/LLMClient.swift:58 | a choices array with any non-object element does not parse, even if the first choice is good |
| Llm.HandleResponse | VibeTyping/LLM/LLMClient.swift:43-70 | the result is the raw text or a non-empty trimmed string; transport errors, non-HTTP responses, non-200 statuses and unparseable bodies give the raw text; a readable 200 answer gives its content trimmed, or the raw text when that is empty |
| Llm.AnswerIsTrimmedContent | VibeTyping/LLM/LLMClient.swift:61-62 | any 200 answer whose content reads gives that content trimmed when some character is not whitespace, and the raw text when all of it is |
| Llm.Correction | VibeTyping/LLM/LLMClient.swift:9-71 | an invalid URL or a body that fails to serialise gives the raw text; otherwise the outcome of sending the built request decides, as HandleResponse says; always the raw text or a non-empty trimmed string |
| Llm.CorrectTranscription | VibeTyping/LLM/LLMClient.swift:9-71 | building the request field by field gives exactly Correction's answer |
| Whisper.ModelFolder | VibeTyping/Transcription/WhisperKitManager.swift:34-35 | the custom folder when set and non-empty, otherwise the models directory |
| Whisper.Joined | VibeTyping/Transcription/WhisperKitManager.swift:84 | as long as all segments together, and ends with the last segment |
| Whisper.JoinedAppend | VibeTyping/Transcription/WhisperKitManager.swift:84 | joining without separator distributes over concatenation |
| Whisper.TranscriptOf | VibeTyping/Transcription/WhisperKitManager.swift:73-91 | an inference error gives ""; success gives the joined segment texts trimmed of whitespace and newlines; always trimmed |
| Whisper.WhisperKitManager.constructor | VibeTyping/Transcription/WhisperKitManager.swift:9-10 | no model, not loading |
| Whisper.WhisperKitManager.BeginLoad | VibeTyping/Transcription/WhisperKitManager.swift:26-35 | does nothing when a model is loaded or a load is running; otherwise marks loading and picks the folder |
| Whisper.WhisperKitManager.FinishLoad | VibeTyping/Transcription/WhisperKitManager.swift:29-52 | loading is over whether the load succeeded or threw; success sets the model, failure leaves it nil and reports the error |
| Whisper.WhisperKitManager.LoadModel | VibeTyping/Transcription/WhisperKitManager.swift:26-54 | a no-op under the guard; otherwise the model is the constructed one or stays nil, and loading is false afterwards |
| Whisper.WhisperKitManager.Transcribe | VibeTyping/Transcription/WhisperKitManager.swift:57-92 | "" when the implicit load throws or the model is still missing (a load in flight); otherwise the transcript of the inference; always trimmed |
| Controller.BitAnd | VibeTyping/InputMethod/VibeTypingInputController.swift:53 | the intersection of two flag words is no larger than either (commutativity and idempotence are the lemmas below) |
| Controller.Contains | VibeTyping/InputMethod/VibeTypingInputController.swift:54 | a word contains only words no larger than itself (transitivity below) |
| Controller.IsVoiceInputTrigger | VibeTyping/InputMethod/VibeTypingInputController.swift:50-55 | the key code equals the configured one and the masked modifiers contain every required one (see the lemmas below) |
| Controller.ContainsTransitive | VibeTyping/InputMethod/VibeTypingInputController.swift:54 | inclusion of flag words is transitive |
| Controller.MaskKeepsContains | VibeTyping/InputMethod/VibeTypingInputController.swift:53 | masking keeps inclusion between flag words |
| Controller.BitAndIdempotent | VibeTyping/InputMethod/VibeTypingInputController.swift:53 | masking twice is masking once |
| Controller.ExtraModifiersStillMatch | VibeTyping/InputMethod/VibeTypingInputController.swift:50-55 | pressing extra modifiers on top of a matching event still matches |
| Controller.DeviceDependentBitsIgnored | VibeTyping/InputMethod/VibeTypingInputController.swift:53 | bits outside deviceIndependentFlagsMask do not affect the match |
| Controller.UnmatchableModifiers | VibeTyping/InputMethod/VibeTypingInputController.swift:52-54 | a stored modifier word with a bit outside the mask never matches any event |
| Controller.DefaultTrigger | VibeTyping/InputMethod/InputMethodConstants.swift:5-6 | with nothing stored, Control plus key 44 matches and key 44 alone does not |
| Controller.CorrectionApplies | VibeTyping/InputMethod/VibeTypingInputController.swift:110-111 | correction applies exactly when a non-empty API key string is stored and the enabled flag is absent or stored true |
| Controller.CommitTarget | VibeTyping/InputMethod/VibeTypingInputController.swift:128 | the recording's client when there is one, otherwise the current client |
| Controller.InputController.constructor | VibeTyping/InputMethod/VibeTypingInputController.swift:7-10 | not recording, no client, panel hidden, nothing committed; a fresh recorder with an empty buffer, no tap, the engine stopped and an idle detector whose silence duration is the one in the settings |
| Controller.InputController.ActivateServer | VibeTyping/InputMethod/VibeTypingInputController.swift:14-22 | preloads the model as LoadModel does, discarding a load error |
| Controller.InputController.DeactivateServer | VibeTyping/InputMethod/VibeTypingInputController.swift:24-34 | when recording, stops the recorder (discarding its samples), clears the flag and hides the panel, with the engine stopped and the detector's silence duration kept; otherwise nothing changes |
| Controller.InputController.Handle | VibeTyping/InputMethod/VibeTypingInputController.swift:38-48 | consumed exactly for key-down events from a client that match the trigger, and those toggle recording with the whole new state of a start or a stop; everything else is not consumed and changes nothing; the key code must be readable only for key-down events from a client |
| Controller.InputController.ToggleRecording | VibeTyping/InputMethod/VibeTypingInputController.swift:59-65 | stops when recording, otherwise starts with the given client, with the whole new state of StopRecordingAndTranscribe or StartRecording; nothing is committed |
| Controller.InputController.StartRecording | VibeTyping/InputMethod/VibeTypingInputController.swift:67-82 | remembers the client, sets recording, shows the Recording panel and starts the recorder with an empty buffer and a reset detector; the tap uses the platform's converter and the engine runs exactly when the format exists and the engine starts; the silence duration is kept |
| Controller.InputController.SilenceDetected | VibeTyping/InputMethod/VibeTypingInputController.swift:73-81 | stops only while recording, with the whole new state of StopRecordingAndTranscribe, so a late or repeated silence callback does nothing |
| Controller.InputController.StopRecordingAndTranscribe | VibeTyping/InputMethod/VibeTypingInputController.swift:84-96 | a no-op unless recording; otherwise clears the flag, takes the recorder's samples, hides the panel and spawns nothing when they are empty, else shows Transcribing and spawns a task on exactly those samples; the engine is stopped and the detector's silence duration is kept |
| Controller.InputController.CommitText | VibeTyping/InputMethod/VibeTypingInputController.swift:127-135 | inserts the text once into the commit target; nothing without a target |
| Controller.InputController.FinishTranscription | VibeTyping/InputMethod/VibeTypingInputController.swift:103-123 | empty raw text commits nothing; when correction applies the committed text is exactly the correction client's answer, otherwise the raw text; the panel ends hidden |
| Controller.InputController.RunTranscriptionTask | VibeTyping/InputMethod/VibeTypingInputController.swift:98-124 | the raw text is the manager's transcript of the samples; an already loaded model is kept, a load in flight is left in flight with no model, and otherwise the model is the constructed one (or none) with loading over; the rest proceeds as FinishTranscription states |

## Left out

- Audio conversion (`convertBuffer`) is an opaque function. AVAudioEngine start and stop, and the tap installation, are reduced to the state they leave: a tap present or not, and an engine running or not. The 4096-frame buffer size and the 16 kHz target format are not modelled.
- Floating point: RMS above 0.01 is modelled over reals as "mean of squares above 0.0001", with no `sqrt` and no Float rounding.
- `detectSilence` reads `Date()` twice. The model takes a single `now` per call.
- Concurrency is not modelled: `Task`, `DispatchQueue.main.async`, `MainActor.run`, actor re-entrancy, and the audio thread racing `stopRecording`. Each step runs as one sequential method. `WhisperKitManager.loadModel` is split around its `await` (BeginLoad, FinishLoad), so the state "loading, no model" that a concurrent `transcribe` sees is reachable.
- WhisperKit model download, loading and inference are opaque, possibly failing functions. The WhisperKitConfig fields (model name, repository, compute options) are not modelled.
- URLSession and JSONSerialization are the `Network` parameter. The 10-second timeout and the headers are recorded as request fields only.
- UserDefaults coercions between kinds (for example, a string read as a number) are not modelled. A value stored under the wrong kind reads as absent, 0 or false.
- `String.count` counts grapheme clusters. The model counts characters. Both the token budget and trimming work per character.
- Modifier flags are integers in the range of a 64-bit `UInt`, with the bitwise AND written out on them. The width matters only for the setter's `Int(newValue)` trap, which is a precondition.
- The weak reference `activeClient` is a plain optional. A client that deallocates is not modelled.
- The status panel is modelled only as the state it shows. `menu()`, `openSettings`, the UI files, the application delegate and `NSLog` are not part of this model.
- The creation of the default model directory on the filesystem is not modelled. The directory path is a parameter.
- Settings.TriggerKeyCode: requires the stored code to fit in 16 bits, because the source's `UInt16(val)` conversion traps otherwise.
- Recorder.AudioRecorder.StartRecording: requires that no tap is installed, because a second `installTap(onBus: 0)` raises an AVFoundation exception; `Controller.InputController.Valid` proves the controller never asks for one.
- Settings.AppSettings: the setters other than SetTriggerKeyCode state the new View only for a domain whose key code can be read, since the View includes `triggerKeyCode`; the new domain itself is stated for every domain.
