/**
 * SilenceDetector: an energy-based voice-activity detector fed one chunk of
 * samples at a time. It reports silence only once speech has been heard and
 * the signal has then stayed quiet for the configured duration.
 *
 * The wall clock is an explicit argument `now` (seconds), and the test
 * "RMS > 0.01" is stated without a square root as "mean of squares > 0.01²".
 */
module Silence {
  import opened Wrappers
  import Settings

  /** The RMS level a chunk must exceed to count as speech. */
  const SilenceThreshold: real := 0.01

  function SumOfSquares(samples: seq<real>): (sum: real)
    ensures sum >= 0.0
  {
    if samples == [] then 0.0
    else
      var x := samples[|samples| - 1];
      assert x * x >= 0.0;
      SumOfSquares(samples[..|samples| - 1]) + x * x
  }

  /**
   * Every sample of an all-zero chunk adds nothing; every sample above the
   * threshold in magnitude adds more than the threshold squared.
   */
  lemma {:induction false} SumOfSquaresBounds(samples: seq<real>)
    ensures (forall i :: 0 <= i < |samples| ==> samples[i] == 0.0) ==> SumOfSquares(samples) == 0.0
    ensures (forall i :: 0 <= i < |samples| ==> samples[i] * samples[i] > SilenceThreshold * SilenceThreshold) ==>
      SumOfSquares(samples) >= (|samples| as real) * (SilenceThreshold * SilenceThreshold)
    ensures samples != [] && (forall i :: 0 <= i < |samples| ==> samples[i] * samples[i] > SilenceThreshold * SilenceThreshold) ==>
      SumOfSquares(samples) > (|samples| as real) * (SilenceThreshold * SilenceThreshold)
  {
    if samples != [] {
      var init := samples[..|samples| - 1];
      assert forall i :: 0 <= i < |init| ==> init[i] == samples[i];
      SumOfSquaresBounds(init);
    }
  }

  /** sqrt(mean(x²)) > t, which for t ≥ 0 is mean(x²) > t². */
  predicate IsLoud(samples: seq<real>): (loud: bool)
    requires samples != []
    ensures (forall i :: 0 <= i < |samples| ==> samples[i] == 0.0) ==> !loud
    ensures (forall i :: 0 <= i < |samples| ==> samples[i] * samples[i] > SilenceThreshold * SilenceThreshold) ==> loud
  {
    SumOfSquaresBounds(samples);
    var n := |samples| as real;
    assert SumOfSquares(samples) / n * n == SumOfSquares(samples);
    SumOfSquares(samples) / n > SilenceThreshold * SilenceThreshold
  }

  /** A chunk that does not count as speech (empty chunks included). */
  predicate IsQuiet(samples: seq<real>) {
    samples == [] || !IsLoud(samples)
  }

  /** The detector's two mutable fields. */
  datatype VadState = VadState(hasSpeechStarted: bool, silenceStartTime: Option<real>)

  /** The state of a freshly constructed or reset detector. */
  const Idle: VadState := VadState(false, None)

  /** A silence timer only runs once speech has been heard. */
  predicate Consistent(s: VadState) {
    s.silenceStartTime.Some? ==> s.hasSpeechStarted
  }

  datatype StepResult = StepResult(next: VadState, silent: bool)

  /** One call of detectSilence(samples:) at time `now`, with silence duration `duration`. */
  function Step(s: VadState, duration: real, samples: seq<real>, now: real): (r: StepResult)
    ensures Consistent(s) ==> Consistent(r.next)
    ensures r.silent ==> s.hasSpeechStarted && samples != [] && !IsLoud(samples)
    ensures r.silent ==> r.next.silenceStartTime.Some? && now - r.next.silenceStartTime.value >= duration
    ensures samples != [] && IsLoud(samples) ==> r.next == VadState(true, None) && !r.silent
    ensures samples == [] ==> r == StepResult(s, false)
  {
    if samples == [] then StepResult(s, false)
    else if IsLoud(samples) then StepResult(VadState(true, None), false)
    else if !s.hasSpeechStarted then StepResult(s, false)
    else
      var start := s.silenceStartTime.GetOr(now);
      StepResult(VadState(true, Some(start)), now - start >= duration)
  }

  /** One chunk delivered to the detector, with the time it was processed. */
  datatype Chunk = Chunk(samples: seq<real>, at: real)

  /** The answers to a sequence of chunks, and the state left behind. */
  datatype Trace = Trace(final: VadState, outputs: seq<bool>)

  function Run(s: VadState, duration: real, chunks: seq<Chunk>): (t: Trace)
    ensures |t.outputs| == |chunks|
    decreases |chunks|
  {
    if chunks == [] then Trace(s, [])
    else
      var r := Step(s, duration, chunks[0].samples, chunks[0].at);
      var rest := Run(r.next, duration, chunks[1..]);
      Trace(rest.final, [r.silent] + rest.outputs)
  }

  predicate AllQuiet(chunks: seq<Chunk>) {
    forall i :: 0 <= i < |chunks| ==> IsQuiet(chunks[i].samples)
  }

  /** The detector's invariant holds after any sequence of chunks. */
  lemma {:induction false} RunKeepsConsistent(s: VadState, duration: real, chunks: seq<Chunk>)
    requires Consistent(s)
    ensures Consistent(Run(s, duration, chunks).final)
    decreases |chunks|
  {
    if chunks != [] {
      var r := Step(s, duration, chunks[0].samples, chunks[0].at);
      RunKeepsConsistent(r.next, duration, chunks[1..]);
    }
  }

  /**
   * Ambient noise before any speech: as long as no chunk is loud, the
   * detector never reports silence and its state does not move.
   */
  lemma {:induction false} NoSilenceBeforeSpeech(s: VadState, duration: real, chunks: seq<Chunk>)
    requires !s.hasSpeechStarted
    requires AllQuiet(chunks)
    ensures Run(s, duration, chunks).final == s
    ensures forall i :: 0 <= i < |chunks| ==> !Run(s, duration, chunks).outputs[i]
    decreases |chunks|
  {
    if chunks != [] {
      assert IsQuiet(chunks[0].samples);
      NoSilenceBeforeSpeech(s, duration, chunks[1..]);
      var t := Run(s, duration, chunks);
      var rest := Run(s, duration, chunks[1..]);
      assert t.outputs == [false] + rest.outputs;
    }
  }

  /**
   * With the silence timer running since `t0`, every further quiet chunk
   * reports silence exactly when it is non-empty and at least `duration`
   * seconds have passed since `t0`; the timer keeps its start time.
   */
  lemma {:induction false} QuietRunWithTimer(t0: real, duration: real, chunks: seq<Chunk>)
    requires AllQuiet(chunks)
    ensures Run(VadState(true, Some(t0)), duration, chunks).final == VadState(true, Some(t0))
    ensures forall i :: 0 <= i < |chunks| ==>
      Run(VadState(true, Some(t0)), duration, chunks).outputs[i]
        == (chunks[i].samples != [] && chunks[i].at - t0 >= duration)
    decreases |chunks|
  {
    if chunks != [] {
      var s := VadState(true, Some(t0));
      assert IsQuiet(chunks[0].samples);
      QuietRunWithTimer(t0, duration, chunks[1..]);
      var t := Run(s, duration, chunks);
      var rest := Run(s, duration, chunks[1..]);
      assert t.outputs == [chunks[0].samples != [] && chunks[0].at - t0 >= duration] + rest.outputs;
      forall i | 1 <= i < |chunks|
        ensures t.outputs[i] == (chunks[i].samples != [] && chunks[i].at - t0 >= duration)
      {
        assert t.outputs[i] == rest.outputs[i - 1];
        assert chunks[1..][i - 1] == chunks[i];
      }
    }
  }

  /**
   * After speech, the first quiet non-empty chunk starts the timer at its own
   * time; from then on a chunk reports silence exactly when it is non-empty and
   * `duration` seconds have passed since that first quiet chunk. With a
   * positive duration the first quiet chunk itself never reports silence.
   */
  lemma {:induction false} QuietRunAfterSpeech(duration: real, chunks: seq<Chunk>)
    requires chunks != [] && chunks[0].samples != []
    requires AllQuiet(chunks)
    ensures Run(VadState(true, None), duration, chunks).final == VadState(true, Some(chunks[0].at))
    ensures forall i :: 0 <= i < |chunks| ==>
      Run(VadState(true, None), duration, chunks).outputs[i]
        == (chunks[i].samples != [] && chunks[i].at - chunks[0].at >= duration)
    ensures duration > 0.0 ==> !Run(VadState(true, None), duration, chunks).outputs[0]
  {
    var t0 := chunks[0].at;
    assert IsQuiet(chunks[0].samples);
    assert Step(VadState(true, None), duration, chunks[0].samples, t0).next == VadState(true, Some(t0));
    QuietRunWithTimer(t0, duration, chunks[1..]);
    var t := Run(VadState(true, None), duration, chunks);
    var rest := Run(VadState(true, Some(t0)), duration, chunks[1..]);
    forall i | 1 <= i < |chunks|
      ensures t.outputs[i] == (chunks[i].samples != [] && chunks[i].at - t0 >= duration)
    {
      assert t.outputs[i] == rest.outputs[i - 1];
      assert chunks[1..][i - 1] == chunks[i];
    }
  }

  /**
   * Silence is not a one-shot signal: with a non-decreasing clock, once a
   * quiet chunk has reported silence, every later non-empty quiet chunk
   * reports it again (until a loud chunk or a reset).
   */
  lemma NotOneShot(t0: real, duration: real, chunks: seq<Chunk>)
    requires AllQuiet(chunks)
    requires forall i, j :: 0 <= i <= j < |chunks| ==> chunks[i].at <= chunks[j].at
    ensures forall i, j ::
              (0 <= i < j < |chunks| && chunks[j].samples != [] &&
               Run(VadState(true, Some(t0)), duration, chunks).outputs[i]) ==>
                Run(VadState(true, Some(t0)), duration, chunks).outputs[j]
  {
    QuietRunWithTimer(t0, duration, chunks);
  }

  /**
   * The detector object. `silenceThreshold` never changes in the source and
   * is the constant SilenceThreshold; the silence duration is read from the
   * settings once, at construction.
   */
  class SilenceDetector {
    var silenceDurationThreshold: real
    var silenceStartTime: Option<real>
    var hasSpeechStarted: bool

    function State(): VadState
      reads this
    {
      VadState(hasSpeechStarted, silenceStartTime)
    }

    ghost predicate Valid()
      reads this
    {
      Consistent(State()) && silenceDurationThreshold > 0.0
    }

    constructor(settings: Settings.Defaults)
      ensures Valid() && State() == Idle
      ensures silenceDurationThreshold == Settings.SilenceDuration(settings)
    {
      silenceDurationThreshold := Settings.SilenceDuration(settings);
      silenceStartTime := None;
      hasSpeechStarted := false;
    }

    /** Returns true when silence is detected after speech has occurred. */
    method DetectSilence(samples: seq<real>, now: real) returns (silent: bool)
      requires Valid()
      modifies this
      ensures Valid()
      ensures silenceDurationThreshold == old(silenceDurationThreshold)
      ensures StepResult(State(), silent) == Step(old(State()), silenceDurationThreshold, samples, now)
    {
      if samples == [] {
        return false;
      }
      if IsLoud(samples) {
        hasSpeechStarted := true;
        silenceStartTime := None;
        return false;
      }
      if !hasSpeechStarted {
        return false;
      }
      if silenceStartTime.None? {
        silenceStartTime := Some(now);
      }
      if now - silenceStartTime.value >= silenceDurationThreshold {
        return true;
      }
      return false;
    }

    method Reset()
      requires Valid()
      modifies this
      ensures Valid() && State() == Idle
      ensures silenceDurationThreshold == old(silenceDurationThreshold)
    {
      silenceStartTime := None;
      hasSpeechStarted := false;
    }
  }
}
