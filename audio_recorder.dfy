/**
 * AudioRecorder: accumulates the converted microphone samples of one
 * recording and feeds each converted chunk to the silence detector.
 *
 * The audio engine and the format converter are platform collaborators: the
 * converter is an opaque function from a hardware buffer to target-format
 * samples, and the platform calls DeliverBuffer once per tapped buffer.
 */
module Recorder {
  import opened Wrappers
  import Settings
  import Silence

  /** An AVAudioPCMBuffer: its frame length and, when present, its float channel data. */
  datatype PcmBuffer = PcmBuffer(frameLength: nat, floatChannelData: Option<seq<seq<real>>>)

  /** A float buffer has at least one channel, each holding at least `frameLength` frames. */
  predicate WellFormed(buffer: PcmBuffer) {
    buffer.floatChannelData.Some? ==>
      && |buffer.floatChannelData.value| >= 1
      && forall ch :: ch in buffer.floatChannelData.value ==> buffer.frameLength <= |ch|
  }

  /** The first `frameLength` samples of channel 0, or nothing when there is no data. */
  function ExtractSamples(buffer: PcmBuffer): (samples: seq<real>)
    requires WellFormed(buffer)
    ensures buffer.floatChannelData.None? || buffer.frameLength == 0 ==> samples == []
    ensures buffer.floatChannelData.Some? ==>
      && |samples| == buffer.frameLength
      && forall i :: 0 <= i < |samples| ==> samples[i] == buffer.floatChannelData.value[0][i]
  {
    match buffer.floatChannelData
    case None => []
    case Some(channels) =>
      assert channels[0] in channels;
      if buffer.frameLength == 0 then [] else channels[0][..buffer.frameLength]
  }

  /** The hardware-to-16 kHz-mono conversion (an empty result is a failed conversion). */
  type Converter = PcmBuffer -> seq<real>

  /** What the tap closure captured: the converter, when one could be created. */
  datatype Tap = Tap(converter: Option<Converter>)

  /** The samples the tap closure obtains from one hardware buffer. */
  function Converted(tap: Tap, buffer: PcmBuffer): (samples: seq<real>)
    requires WellFormed(buffer)
    ensures tap.converter.Some? ==> samples == tap.converter.value(buffer)
    ensures tap.converter.None? && buffer.floatChannelData.None? ==> samples == []
    ensures tap.converter.None? && buffer.floatChannelData.Some? ==>
      samples == buffer.floatChannelData.value[0][..buffer.frameLength]
  {
    match tap.converter
    case Some(convert) => convert(buffer)
    case None => ExtractSamples(buffer)
  }

  /**
   * The platform's answers when recording starts: whether the target format
   * can be created, the converter from the hardware format (if any), and
   * whether the engine starts.
   */
  datatype AudioPlatform = AudioPlatform(targetFormatAvailable: bool, converter: Option<Converter>, engineStarts: bool)

  class AudioRecorder {
    var audioSamples: seq<real>
    var hasSilenceCallback: bool
    /** The tap installed on the input node's bus 0, if any. */
    var tap: Option<Tap>
    var engineRunning: bool
    const silenceDetector: Silence.SilenceDetector

    ghost predicate Valid()
      reads this, silenceDetector
    {
      && silenceDetector.Valid()
      && (tap.None? ==> audioSamples == [])
      && (tap.Some? ==> hasSilenceCallback)
      && (engineRunning ==> tap.Some?)
    }

    constructor(settings: Settings.Defaults)
      ensures Valid() && fresh(silenceDetector)
      ensures audioSamples == [] && tap.None? && !engineRunning && !hasSilenceCallback
      ensures silenceDetector.State() == Silence.Idle
      ensures silenceDetector.silenceDurationThreshold == Settings.SilenceDuration(settings)
    {
      audioSamples := [];
      hasSilenceCallback := false;
      tap := None;
      engineRunning := false;
      silenceDetector := new Silence.SilenceDetector(settings);
    }

    /**
     * Clears the buffer and resets the detector before anything else; without
     * a target format it returns with no tap installed. Installing a second
     * tap on bus 0 is a runtime error, hence the precondition.
     */
    method StartRecording(platform: AudioPlatform)
      requires Valid() && tap.None?
      modifies this, silenceDetector
      ensures Valid()
      ensures audioSamples == [] && hasSilenceCallback
      ensures silenceDetector.State() == Silence.Idle
      ensures silenceDetector.silenceDurationThreshold == old(silenceDetector.silenceDurationThreshold)
      ensures tap.Some? == platform.targetFormatAvailable
      ensures tap.Some? ==> tap.value.converter == platform.converter
      ensures engineRunning == (platform.targetFormatAvailable && platform.engineStarts)
    {
      audioSamples := [];
      silenceDetector.Reset();
      hasSilenceCallback := true;
      if !platform.targetFormatAvailable {
        return;
      }
      tap := Some(Tap(platform.converter));
      engineRunning := platform.engineStarts;
    }

    /**
     * The tap closure for one hardware buffer at time `now`. An empty
     * converted chunk is dropped; otherwise it is appended and given to the
     * detector, and the silence callback fires exactly when the detector
     * reports silence.
     */
    method DeliverBuffer(buffer: PcmBuffer, now: real) returns (callbackFired: bool)
      requires Valid() && tap.Some? && engineRunning && WellFormed(buffer)
      modifies this`audioSamples, silenceDetector
      ensures Valid()
      ensures silenceDetector.silenceDurationThreshold == old(silenceDetector.silenceDurationThreshold)
      ensures var chunk := Converted(tap.value, buffer);
        if chunk == [] then
          && audioSamples == old(audioSamples)
          && silenceDetector.State() == old(silenceDetector.State())
          && !callbackFired
        else
          && audioSamples == old(audioSamples) + chunk
          && Silence.StepResult(silenceDetector.State(), callbackFired)
             == Silence.Step(old(silenceDetector.State()), silenceDetector.silenceDurationThreshold, chunk, now)
    {
      var convertedSamples: seq<real>;
      match tap.value.converter {
        case Some(convert) =>
          convertedSamples := convert(buffer);
        case None =>
          convertedSamples := ExtractSamples(buffer);
      }
      if convertedSamples == [] {
        return false;
      }
      audioSamples := audioSamples + convertedSamples;
      var silent := silenceDetector.DetectSilence(convertedSamples, now);
      callbackFired := silent && hasSilenceCallback;
    }

    /** Removes the tap, stops the engine, resets the detector, and hands over the buffer. */
    method StopRecording() returns (samples: seq<real>)
      requires Valid()
      modifies this, silenceDetector
      ensures Valid()
      ensures samples == old(audioSamples)
      ensures audioSamples == [] && tap.None? && !engineRunning
      ensures hasSilenceCallback == old(hasSilenceCallback)
      ensures silenceDetector.State() == Silence.Idle
      ensures silenceDetector.silenceDurationThreshold == old(silenceDetector.silenceDurationThreshold)
    {
      tap := None;
      engineRunning := false;
      silenceDetector.Reset();
      samples := audioSamples;
      audioSamples := [];
    }
  }
}
