/**
 * VibeTypingInputController: the input-method controller. The trigger key
 * toggles recording; stopping (by the key or by detected silence) hands the
 * samples to a transcription task, which transcribes, optionally corrects,
 * and commits the text to the client that started the recording (or the
 * current client).
 *
 * The shared settings are passed in as the current defaults domain; the
 * transcription task is RunTranscriptionTask, called after the stop that
 * spawned it.
 */
module Controller {
  import opened Wrappers
  import Settings
  import Silence
  import Recorder
  import Whisper
  import Llm
  import Text

  /** A text-input client of the input method (the focused text field). */
  datatype Client = Client(id: nat)

  datatype EventType = KeyDown | KeyUp | FlagsChanged | OtherEvent

  datatype KeyEvent = KeyEvent(eventType: EventType, keyCode: Settings.UInt16, modifierFlags: Settings.UInt)

  /** The state shown by the status panel (the UI's RecordingState). */
  datatype RecordingState = Recording | Transcribing | Correcting

  /** What the status panel displays. */
  datatype Panel = Hidden | Showing(state: RecordingState)

  /** One `insertText` into a client. */
  datatype Commit = Commit(client: Client, text: string)

  /** Bitwise AND of two raw flag words (OptionSet intersection). */
  function BitAnd(a: nat, b: nat): (r: nat)
    ensures r <= a && r <= b
    decreases a
  {
    if a == 0 || b == 0 then 0
    else 2 * BitAnd(a / 2, b / 2) + (if a % 2 == 1 && b % 2 == 1 then 1 else 0)
  }

  /** OptionSet.contains: every bit of `member` is set in `flags`. */
  predicate Contains(flags: nat, member: nat): (contained: bool)
    ensures contained ==> member <= flags
  {
    BitAnd(flags, member) == member
  }

  /** NSEvent.ModifierFlags.deviceIndependentFlagsMask. */
  const DeviceIndependentFlagsMask: nat := 0xffff_0000

  /**
   * The key code matches and the event's device-independent modifiers
   * include every required one.
   */
  predicate IsVoiceInputTrigger(event: KeyEvent, settings: Settings.Defaults)
    requires Settings.KeyCodeFits(settings)
  {
    var actual := BitAnd(event.modifierFlags, DeviceIndependentFlagsMask);
    event.keyCode == Settings.TriggerKeyCode(settings) && Contains(actual, Settings.TriggerModifierFlags(settings))
  }

  lemma {:induction false} BitAndCommutes(a: nat, b: nat)
    ensures BitAnd(a, b) == BitAnd(b, a)
    decreases a
  {
    if a != 0 && b != 0 {
      BitAndCommutes(a / 2, b / 2);
    }
  }

  /** Masking twice is masking once. */
  lemma {:induction false} BitAndIdempotent(a: nat, m: nat)
    ensures BitAnd(BitAnd(a, m), m) == BitAnd(a, m)
    decreases a
  {
    if a != 0 && m != 0 {
      BitAndIdempotent(a / 2, m / 2);
    }
  }

  lemma {:induction false} ContainsTransitive(a: nat, b: nat, c: nat)
    requires Contains(a, b) && Contains(b, c)
    ensures Contains(a, c)
    decreases a
  {
    if a != 0 && b != 0 && c != 0 {
      ContainsTransitive(a / 2, b / 2, c / 2);
    }
  }

  lemma {:induction false} BitAndSelf(a: nat)
    ensures BitAnd(a, a) == a
    decreases a
  {
    if a != 0 {
      BitAndSelf(a / 2);
    }
  }

  /** Masking keeps inclusion between flag words. */
  lemma {:induction false} MaskKeepsContains(a: nat, b: nat, m: nat)
    requires Contains(a, b)
    ensures Contains(BitAnd(a, m), BitAnd(b, m))
    decreases a
  {
    if a != 0 && b != 0 && m != 0 {
      MaskKeepsContains(a / 2, b / 2, m / 2);
    }
  }

  /** Shifting both words left by one shifts their intersection left by one. */
  lemma {:induction false} BitAndDoubles(a: nat, b: nat)
    ensures BitAnd(2 * a, 2 * b) == 2 * BitAnd(a, b)
  {
    if a != 0 && b != 0 {
      assert (2 * a) / 2 == a && (2 * b) / 2 == b;
    }
  }

  /** Holding extra modifier keys does not stop the trigger from matching. */
  lemma ExtraModifiersStillMatch(event: KeyEvent, flags: Settings.UInt, settings: Settings.Defaults)
    requires Settings.KeyCodeFits(settings)
    requires IsVoiceInputTrigger(event, settings)
    requires Contains(flags, event.modifierFlags)
    ensures IsVoiceInputTrigger(event.(modifierFlags := flags), settings)
  {
    MaskKeepsContains(flags, event.modifierFlags, DeviceIndependentFlagsMask);
    ContainsTransitive(BitAnd(flags, DeviceIndependentFlagsMask),
                       BitAnd(event.modifierFlags, DeviceIndependentFlagsMask),
                       Settings.TriggerModifierFlags(settings));
  }

  /** Device-dependent modifier bits play no part in matching. */
  lemma DeviceDependentBitsIgnored(event: KeyEvent, settings: Settings.Defaults)
    requires Settings.KeyCodeFits(settings)
    ensures IsVoiceInputTrigger(event, settings)
        == IsVoiceInputTrigger(event.(modifierFlags := BitAnd(event.modifierFlags, DeviceIndependentFlagsMask)), settings)
  {
    BitAndIdempotent(event.modifierFlags, DeviceIndependentFlagsMask);
  }

  /** A stored modifier word with a bit outside the mask can never be matched. */
  lemma UnmatchableModifiers(event: KeyEvent, settings: Settings.Defaults)
    requires Settings.KeyCodeFits(settings)
    requires !Contains(DeviceIndependentFlagsMask, Settings.TriggerModifierFlags(settings))
    ensures !IsVoiceInputTrigger(event, settings)
  {
    var actual := BitAnd(event.modifierFlags, DeviceIndependentFlagsMask);
    BitAndCommutes(actual, DeviceIndependentFlagsMask);
    BitAndIdempotent(event.modifierFlags, DeviceIndependentFlagsMask);
    assert Contains(DeviceIndependentFlagsMask, actual);
    if Contains(actual, Settings.TriggerModifierFlags(settings)) {
      ContainsTransitive(DeviceIndependentFlagsMask, actual, Settings.TriggerModifierFlags(settings));
    }
  }

  /** `x << n` on raw flag words. */
  function ShiftLeft(x: nat, n: nat): nat {
    if n == 0 then x else 2 * ShiftLeft(x, n - 1)
  }

  /** Shifting both words left by the same amount shifts their intersection too. */
  lemma {:induction false} BitAndShifts(a: nat, b: nat, n: nat)
    ensures BitAnd(ShiftLeft(a, n), ShiftLeft(b, n)) == ShiftLeft(BitAnd(a, b), n)
  {
    if n > 0 {
      BitAndShifts(a, b, n - 1);
      BitAndDoubles(ShiftLeft(a, n - 1), ShiftLeft(b, n - 1));
    }
  }

  /** The Control flag lies inside the device-independent mask. */
  lemma ControlFlagIsDeviceIndependent()
    ensures BitAnd(0x4_0000, 0xffff_0000) == 0x4_0000
  {
    assert ShiftLeft(4, 8) == 0x400 && ShiftLeft(4, 16) == 0x4_0000;
    assert ShiftLeft(0xffff, 8) == 0xff_ff00 && ShiftLeft(0xffff, 16) == 0xffff_0000;
    assert BitAnd(4, 0xffff) == 4;
    BitAndShifts(4, 0xffff, 16);
  }

  /** With nothing stored, Control-/ (key code 44) triggers, and '/' alone does not. */
  lemma DefaultTrigger(settings: Settings.Defaults)
    requires Settings.TriggerKeyCodeKey !in settings && Settings.TriggerModifierFlagsKey !in settings
    ensures IsVoiceInputTrigger(KeyEvent(KeyDown, 44, Settings.ControlFlag), settings)
    ensures !IsVoiceInputTrigger(KeyEvent(KeyDown, 44, 0), settings)
  {
    assert Settings.TriggerKeyCode(settings) == 44;
    assert Settings.TriggerModifierFlags(settings) == 0x4_0000;
    ControlFlagIsDeviceIndependent();
    BitAndSelf(0x4_0000);
  }

  /** Correction runs only when it is enabled and an API key is set. */
  predicate CorrectionApplies(settings: Settings.Defaults): (applies: bool)
    ensures applies <==>
      && Settings.StringFor(settings, Settings.LlmApiKeyKey).Some?
      && Settings.StringFor(settings, Settings.LlmApiKeyKey).value != ""
      && (Settings.CorrectionEnabledKey in settings ==> Settings.BoolFor(settings, Settings.CorrectionEnabledKey))
  {
    Settings.IsLLMCorrectionEnabled(settings) && Settings.LlmApiKey(settings) != ""
  }

  /** The commit target: the client that started recording, else the current client. */
  function CommitTarget(activeClient: Option<Client>, currentClient: Option<Client>): (target: Option<Client>)
    ensures activeClient.Some? ==> target == activeClient
    ensures activeClient.None? ==> target == currentClient
  {
    if activeClient.Some? then activeClient else currentClient
  }

  class InputController {
    var isRecording: bool
    const audioRecorder: Recorder.AudioRecorder
    var panel: Panel
    var activeClient: Option<Client>
    /** Every text inserted into a client, in order. */
    var committed: seq<Commit>

    /** No tap is left installed once recording has stopped. */
    ghost predicate Valid()
      reads this, audioRecorder, audioRecorder.silenceDetector
    {
      audioRecorder.Valid() && (!isRecording ==> audioRecorder.tap.None?)
    }

    constructor(settings: Settings.Defaults)
      ensures Valid() && fresh(audioRecorder) && fresh(audioRecorder.silenceDetector)
      ensures !isRecording && activeClient.None? && panel == Hidden && committed == []
      ensures audioRecorder.audioSamples == [] && audioRecorder.tap.None? && !audioRecorder.engineRunning
      ensures audioRecorder.silenceDetector.State() == Silence.Idle
      ensures audioRecorder.silenceDetector.silenceDurationThreshold == Settings.SilenceDuration(settings)
    {
      isRecording := false;
      audioRecorder := new Recorder.AudioRecorder(settings);
      panel := Hidden;
      activeClient := None;
      committed := [];
    }

    /** activateServer: preloads the model; a load error is discarded. */
    method ActivateServer(manager: Whisper.WhisperKitManager, settings: Settings.Defaults,
                          modelDirectory: string, construct: string -> Whisper.LoadOutcome)
      requires manager.Valid()
      modifies manager
      ensures manager.Valid()
      ensures old(manager.whisperKit.Some? || manager.isLoading) ==>
        manager.whisperKit == old(manager.whisperKit) && manager.isLoading == old(manager.isLoading)
      ensures !old(manager.whisperKit.Some? || manager.isLoading) ==>
        var outcome := construct(Whisper.ModelFolder(Settings.CustomModelFolder(settings), modelDirectory));
        && !manager.isLoading
        && manager.whisperKit == (if outcome.Loaded? then Some(outcome.handle) else None)
    {
      var _ := manager.LoadModel(settings, modelDirectory, construct);
    }

    /** deactivateServer: a recording in progress is stopped and its samples discarded. */
    method DeactivateServer()
      requires Valid()
      modifies this, audioRecorder, audioRecorder.silenceDetector
      ensures Valid() && !isRecording
      ensures !old(isRecording) ==>
        unchanged(this) && unchanged(audioRecorder) && unchanged(audioRecorder.silenceDetector)
      ensures old(isRecording) ==>
        && panel == Hidden && audioRecorder.audioSamples == [] && audioRecorder.tap.None?
        && !audioRecorder.engineRunning && audioRecorder.silenceDetector.State() == Silence.Idle
        && audioRecorder.silenceDetector.silenceDurationThreshold
           == old(audioRecorder.silenceDetector.silenceDurationThreshold)
      ensures activeClient == old(activeClient) && committed == old(committed)
    {
      if isRecording {
        var _ := audioRecorder.StopRecording();
        isRecording := false;
        panel := Hidden;
      }
    }

    /**
     * handle(_:client:): consumes exactly the key-down events that match the
     * trigger and come from a text-input client, and toggles recording for them.
     * `task` holds the samples of a transcription task spawned by a stop.
     */
    method Handle(event: Option<KeyEvent>, sender: Option<Client>, settings: Settings.Defaults,
                  platform: Recorder.AudioPlatform)
      returns (consumed: bool, task: Option<seq<real>>)
      requires Valid()
      requires event.Some? && sender.Some? && event.value.eventType == KeyDown ==> Settings.KeyCodeFits(settings)
      modifies this, audioRecorder, audioRecorder.silenceDetector
      ensures Valid()
      ensures consumed == (event.Some? && sender.Some? && event.value.eventType == KeyDown
                           && IsVoiceInputTrigger(event.value, settings))
      ensures !consumed ==>
        && task.None?
        && unchanged(this) && unchanged(audioRecorder) && unchanged(audioRecorder.silenceDetector)
      ensures consumed ==> isRecording == !old(isRecording) && committed == old(committed)
      ensures consumed && !old(isRecording) ==>
        && activeClient == sender && task.None? && panel == Showing(Recording)
        && audioRecorder.audioSamples == [] && audioRecorder.silenceDetector.State() == Silence.Idle
        && audioRecorder.tap.Some? == platform.targetFormatAvailable
        && (audioRecorder.tap.Some? ==> audioRecorder.tap.value.converter == platform.converter)
        && audioRecorder.engineRunning == (platform.targetFormatAvailable && platform.engineStarts)
        && audioRecorder.silenceDetector.silenceDurationThreshold
           == old(audioRecorder.silenceDetector.silenceDurationThreshold)
      ensures consumed && old(isRecording) ==>
        && task == (if old(audioRecorder.audioSamples) == [] then None else Some(old(audioRecorder.audioSamples)))
        && activeClient == old(activeClient)
        && panel == (if task.None? then Hidden else Showing(Transcribing))
        && audioRecorder.audioSamples == [] && audioRecorder.tap.None? && !audioRecorder.engineRunning
        && audioRecorder.silenceDetector.State() == Silence.Idle
        && audioRecorder.silenceDetector.silenceDurationThreshold
           == old(audioRecorder.silenceDetector.silenceDurationThreshold)
    {
      task := None;
      if event.None? || sender.None? {
        return false, None;
      }
      if event.value.eventType == KeyDown && IsVoiceInputTrigger(event.value, settings) {
        task := ToggleRecording(sender.value, platform);
        return true, task;
      }
      return false, None;
    }

    method ToggleRecording(client: Client, platform: Recorder.AudioPlatform) returns (task: Option<seq<real>>)
      requires Valid()
      modifies this, audioRecorder, audioRecorder.silenceDetector
      ensures Valid() && isRecording == !old(isRecording) && committed == old(committed)
      ensures !old(isRecording) ==>
        && activeClient == Some(client) && task.None? && panel == Showing(Recording)
        && audioRecorder.audioSamples == [] && audioRecorder.silenceDetector.State() == Silence.Idle
        && audioRecorder.tap.Some? == platform.targetFormatAvailable
        && (audioRecorder.tap.Some? ==> audioRecorder.tap.value.converter == platform.converter)
        && audioRecorder.engineRunning == (platform.targetFormatAvailable && platform.engineStarts)
        && audioRecorder.silenceDetector.silenceDurationThreshold
           == old(audioRecorder.silenceDetector.silenceDurationThreshold)
      ensures old(isRecording) ==>
        && task == (if old(audioRecorder.audioSamples) == [] then None else Some(old(audioRecorder.audioSamples)))
        && activeClient == old(activeClient)
        && panel == (if task.None? then Hidden else Showing(Transcribing))
        && audioRecorder.audioSamples == [] && audioRecorder.tap.None? && !audioRecorder.engineRunning
        && audioRecorder.silenceDetector.State() == Silence.Idle
        && audioRecorder.silenceDetector.silenceDurationThreshold
           == old(audioRecorder.silenceDetector.silenceDurationThreshold)
    {
      if isRecording {
        task := StopRecordingAndTranscribe();
      } else {
        StartRecording(client, platform);
        task := None;
      }
    }

    /** Remembers the client, raises the flag, shows the panel, and starts the recorder. */
    method StartRecording(client: Client, platform: Recorder.AudioPlatform)
      requires Valid() && !isRecording
      modifies this, audioRecorder, audioRecorder.silenceDetector
      ensures Valid() && isRecording
      ensures activeClient == Some(client) && panel == Showing(Recording) && committed == old(committed)
      ensures audioRecorder.audioSamples == [] && audioRecorder.silenceDetector.State() == Silence.Idle
      ensures audioRecorder.tap.Some? == platform.targetFormatAvailable
      ensures audioRecorder.tap.Some? ==> audioRecorder.tap.value.converter == platform.converter
      ensures audioRecorder.engineRunning == (platform.targetFormatAvailable && platform.engineStarts)
      ensures audioRecorder.silenceDetector.silenceDurationThreshold
              == old(audioRecorder.silenceDetector.silenceDurationThreshold)
    {
      activeClient := Some(client);
      isRecording := true;
      panel := Showing(Recording);
      audioRecorder.StartRecording(platform);
    }

    /**
     * The silence callback as it runs on the main queue: stops only if still
     * recording, so a late or repeated callback does nothing.
     */
    method SilenceDetected() returns (task: Option<seq<real>>)
      requires Valid()
      modifies this, audioRecorder, audioRecorder.silenceDetector
      ensures Valid() && !isRecording
      ensures activeClient == old(activeClient) && committed == old(committed)
      ensures !old(isRecording) ==>
        && task.None?
        && unchanged(this) && unchanged(audioRecorder) && unchanged(audioRecorder.silenceDetector)
      ensures old(isRecording) ==>
        && task == (if old(audioRecorder.audioSamples) == [] then None else Some(old(audioRecorder.audioSamples)))
        && panel == (if task.None? then Hidden else Showing(Transcribing))
        && audioRecorder.audioSamples == [] && audioRecorder.tap.None? && !audioRecorder.engineRunning
        && audioRecorder.silenceDetector.State() == Silence.Idle
        && audioRecorder.silenceDetector.silenceDurationThreshold
           == old(audioRecorder.silenceDetector.silenceDurationThreshold)
    {
      task := None;
      if isRecording {
        task := StopRecordingAndTranscribe();
      }
    }

    /**
     * The synchronous part of stopRecordingAndTranscribe: a no-op unless
     * recording; otherwise the flag is cleared first, the recorder is stopped,
     * and a transcription task is spawned only when samples were captured.
     */
    method StopRecordingAndTranscribe() returns (task: Option<seq<real>>)
      requires Valid()
      modifies this, audioRecorder, audioRecorder.silenceDetector
      ensures Valid() && !isRecording
      ensures activeClient == old(activeClient) && committed == old(committed)
      ensures !old(isRecording) ==>
        && task.None?
        && unchanged(this) && unchanged(audioRecorder) && unchanged(audioRecorder.silenceDetector)
      ensures old(isRecording) ==>
        && task == (if old(audioRecorder.audioSamples) == [] then None else Some(old(audioRecorder.audioSamples)))
        && panel == (if task.None? then Hidden else Showing(Transcribing))
        && audioRecorder.audioSamples == [] && audioRecorder.tap.None? && !audioRecorder.engineRunning
        && audioRecorder.silenceDetector.State() == Silence.Idle
        && audioRecorder.silenceDetector.silenceDurationThreshold
           == old(audioRecorder.silenceDetector.silenceDurationThreshold)
    {
      if !isRecording {
        return None;
      }
      isRecording := false;
      var audioSamples := audioRecorder.StopRecording();
      if audioSamples == [] {
        panel := Hidden;
        return None;
      }
      panel := Showing(Transcribing);
      task := Some(audioSamples);
    }

    /** commitText: inserts into the commit target; nothing happens without one. */
    method CommitText(text: string, currentClient: Option<Client>)
      modifies this`committed
      ensures committed == old(committed) + match CommitTarget(activeClient, currentClient)
                                             case Some(client) => [Commit(client, text)]
                                             case None => []
    {
      var client := CommitTarget(activeClient, currentClient);
      if client.None? {
        return;
      }
      committed := committed + [Commit(client.value, text)];
    }

    /**
     * The transcription task's steps after transcription: with empty text, hide the panel
     * and commit nothing; otherwise correct the text when correction
     * applies, commit it, and hide the panel.
     */
    method FinishTranscription(rawText: string, settings: Settings.Defaults, network: Llm.Network,
                               currentClient: Option<Client>)
      returns (finalText: string)
      modifies this`panel, this`committed
      ensures panel == Hidden
      ensures rawText == "" ==> committed == old(committed)
      ensures rawText != "" && !CorrectionApplies(settings) ==> finalText == rawText
      ensures rawText != "" && CorrectionApplies(settings) ==> finalText == Llm.Correction(settings, rawText, network)
      ensures rawText != "" ==>
        committed == old(committed) + match CommitTarget(activeClient, currentClient)
                                      case Some(client) => [Commit(client, finalText)]
                                      case None => []
    {
      if rawText == "" {
        panel := Hidden;
        return "";
      }
      if CorrectionApplies(settings) {
        panel := Showing(Correcting);
        finalText := Llm.CorrectTranscription(settings, rawText, network);
      } else {
        finalText := rawText;
      }
      CommitText(finalText, currentClient);
      panel := Hidden;
    }

    /**
     * The transcription task spawned by a stop with samples: transcribe with the shared
     * manager, then finish as FinishTranscription says.
     */
    method RunTranscriptionTask(audioSamples: seq<real>, manager: Whisper.WhisperKitManager,
                                settings: Settings.Defaults, modelDirectory: string,
                                construct: string -> Whisper.LoadOutcome,
                                infer: (Whisper.ModelHandle, seq<real>) -> Whisper.InferenceOutcome,
                                network: Llm.Network, currentClient: Option<Client>)
      returns (rawText: string, finalText: string)
      requires manager.Valid()
      modifies this`panel, this`committed, manager
      ensures manager.Valid() && panel == Hidden
      ensures old(manager.whisperKit).Some? ==>
        && manager.whisperKit == old(manager.whisperKit)
        && rawText == Whisper.TranscriptOf(infer(old(manager.whisperKit).value, audioSamples))
      ensures old(manager.whisperKit).None? && old(manager.isLoading) ==>
        rawText == "" && manager.whisperKit.None? && manager.isLoading
      ensures old(manager.whisperKit).None? && !old(manager.isLoading) ==>
        var outcome := construct(Whisper.ModelFolder(Settings.CustomModelFolder(settings), modelDirectory));
        && !manager.isLoading
        && (outcome.LoadFailed? ==> manager.whisperKit.None? && rawText == "")
        && (outcome.Loaded? ==> manager.whisperKit == Some(outcome.handle)
                                && rawText == Whisper.TranscriptOf(infer(outcome.handle, audioSamples)))
      ensures rawText == "" ==> committed == old(committed)
      ensures rawText != "" && !CorrectionApplies(settings) ==> finalText == rawText
      ensures rawText != "" && CorrectionApplies(settings) ==> finalText == Llm.Correction(settings, rawText, network)
      ensures rawText != "" ==>
        committed == old(committed) + match CommitTarget(activeClient, currentClient)
                                      case Some(client) => [Commit(client, finalText)]
                                      case None => []
    {
      rawText := manager.Transcribe(audioSamples, settings, modelDirectory, construct, infer);
      finalText := FinishTranscription(rawText, settings, network, currentClient);
    }
  }
}
