/**
 * WhisperKitManager: loads the speech model at most once at a time and turns
 * audio samples into trimmed text, answering "" on every failure.
 *
 * The model constructor (which may download) and inference are opaque,
 * possibly failing collaborators passed in as functions. loadModel suspends
 * at the constructor's `await`; BeginLoad and FinishLoad are the parts before
 * and after that suspension, so that another caller can observe the
 * in-between state (loading, no model yet).
 */
module Whisper {
  import opened Wrappers
  import Text
  import Settings

  /** A loaded model; it remembers the folder it was loaded from. */
  datatype ModelHandle = ModelHandle(folder: string)

  /** The result of `try await WhisperKit(config)` for a given model folder. */
  datatype LoadOutcome = Loaded(handle: ModelHandle) | LoadFailed(reason: string)

  /** The result of `try await whisperKit.transcribe(audioArray:)`. */
  datatype InferenceOutcome = Segments(texts: seq<string>) | InferenceFailed(reason: string)

  /**
   * The folder given to the model: the custom folder when it is set and
   * non-empty, the application's model directory otherwise.
   */
  function ModelFolder(customFolder: Option<string>, modelDirectory: string): (folder: string)
    ensures customFolder.Some? && customFolder.value != "" ==> folder == customFolder.value
    ensures customFolder.None? || customFolder.value == "" ==> folder == modelDirectory
  {
    match customFolder
    case Some(path) => if path == "" then modelDirectory else path
    case None => modelDirectory
  }

  /** The total number of characters in a list of segment texts. */
  function TotalLength(texts: seq<string>): nat {
    if texts == [] then 0 else TotalLength(texts[..|texts| - 1]) + |texts[|texts| - 1]|
  }

  /** `joined(separator: "")`: every segment, in order, nothing added between. */
  function Joined(texts: seq<string>): (text: string)
    ensures |text| == TotalLength(texts)
    ensures texts != [] ==> text[|text| - |texts[|texts| - 1]|..] == texts[|texts| - 1]
  {
    if texts == [] then "" else Joined(texts[..|texts| - 1]) + texts[|texts| - 1]
  }

  /** Joining without a separator is concatenation: it distributes over appending segment lists. */
  lemma {:induction false} JoinedAppend(a: seq<string>, b: seq<string>)
    ensures Joined(a + b) == Joined(a) + Joined(b)
    decreases |b|
  {
    if b != [] {
      assert (a + b)[..|a + b| - 1] == a + b[..|b| - 1];
      JoinedAppend(a, b[..|b| - 1]);
    } else {
      assert a + b == a;
    }
  }

  /** The text of an inference: the segments joined and trimmed; "" when inference failed. */
  function TranscriptOf(outcome: InferenceOutcome): (text: string)
    ensures Text.IsTrimmed(text, Text.IsWhitespaceOrNewline)
    ensures outcome.InferenceFailed? ==> text == ""
    ensures outcome.Segments? ==> text == Text.Trim(Joined(outcome.texts), Text.IsWhitespaceOrNewline)
  {
    match outcome
    case Segments(texts) => Text.Trim(Joined(texts), Text.IsWhitespaceOrNewline)
    case InferenceFailed(_) => ""
  }

  class WhisperKitManager {
    var whisperKit: Option<ModelHandle>
    var isLoading: bool

    /** While a load is in flight no model has been set yet. */
    ghost predicate Valid()
      reads this
    {
      isLoading ==> whisperKit.None?
    }

    constructor()
      ensures Valid() && whisperKit.None? && !isLoading
    {
      whisperKit := None;
      isLoading := false;
    }

    /**
     * The part of loadModel before the constructor's `await`: nothing when a
     * model is loaded or a load is in flight; otherwise the loading flag is
     * raised and the folder to load from is chosen.
     */
    method BeginLoad(settings: Settings.Defaults, modelDirectory: string) returns (folder: Option<string>)
      requires Valid()
      modifies this
      ensures Valid()
      ensures old(whisperKit.Some? || isLoading) ==>
        folder.None? && whisperKit == old(whisperKit) && isLoading == old(isLoading)
      ensures !old(whisperKit.Some? || isLoading) ==>
        && folder == Some(ModelFolder(Settings.CustomModelFolder(settings), modelDirectory))
        && isLoading && whisperKit.None?
    {
      if whisperKit.Some? || isLoading {
        return None;
      }
      isLoading := true;
      var customFolder := Settings.CustomModelFolder(settings);
      folder := Some(ModelFolder(customFolder, modelDirectory));
    }

    /**
     * The part after the `await`: on success the model is set; the deferred
     * reset lowers the loading flag on both paths. Returns the error thrown, if any.
     */
    method FinishLoad(outcome: LoadOutcome) returns (error: Option<string>)
      requires Valid() && isLoading
      modifies this
      ensures Valid() && !isLoading
      ensures outcome.Loaded? ==> whisperKit == Some(outcome.handle) && error.None?
      ensures outcome.LoadFailed? ==> whisperKit.None? && error == Some(outcome.reason)
    {
      match outcome {
        case Loaded(handle) =>
          whisperKit := Some(handle);
          error := None;
        case LoadFailed(reason) =>
          error := Some(reason);
      }
      isLoading := false;
    }

    /** loadModel run without interruption; `construct` loads from a folder. */
    method LoadModel(settings: Settings.Defaults, modelDirectory: string, construct: string -> LoadOutcome)
      returns (error: Option<string>)
      requires Valid()
      modifies this
      ensures Valid()
      ensures old(whisperKit.Some? || isLoading) ==>
        error.None? && whisperKit == old(whisperKit) && isLoading == old(isLoading)
      ensures !old(whisperKit.Some? || isLoading) ==>
        var outcome := construct(ModelFolder(Settings.CustomModelFolder(settings), modelDirectory));
        && !isLoading
        && (outcome.Loaded? ==> whisperKit == Some(outcome.handle) && error.None?)
        && (outcome.LoadFailed? ==> whisperKit.None? && error == Some(outcome.reason))
    {
      var folder := BeginLoad(settings, modelDirectory);
      if folder.None? {
        return None;
      }
      error := FinishLoad(construct(folder.value));
    }

    /**
     * transcribe(audioSamples:): loads the model first when there is none;
     * a load that throws, a model still missing (another load in flight) and
     * an inference error all give "".
     */
    method Transcribe(audioSamples: seq<real>, settings: Settings.Defaults, modelDirectory: string,
                      construct: string -> LoadOutcome,
                      infer: (ModelHandle, seq<real>) -> InferenceOutcome)
      returns (text: string)
      requires Valid()
      modifies this
      ensures Valid()
      ensures Text.IsTrimmed(text, Text.IsWhitespaceOrNewline)
      ensures old(whisperKit).Some? ==>
        whisperKit == old(whisperKit) && text == TranscriptOf(infer(old(whisperKit).value, audioSamples))
      ensures old(whisperKit).None? && old(isLoading) ==>
        text == "" && whisperKit.None? && isLoading
      ensures old(whisperKit).None? && !old(isLoading) ==>
        var outcome := construct(ModelFolder(Settings.CustomModelFolder(settings), modelDirectory));
        && !isLoading
        && (outcome.LoadFailed? ==> whisperKit.None? && text == "")
        && (outcome.Loaded? ==> whisperKit == Some(outcome.handle)
                                && text == TranscriptOf(infer(outcome.handle, audioSamples)))
    {
      if whisperKit.None? {
        var error := LoadModel(settings, modelDirectory, construct);
        if error.Some? {
          return "";
        }
      }
      if whisperKit.None? {
        return "";
      }
      text := TranscriptOf(infer(whisperKit.value, audioSamples));
    }
  }
}
