/**
 * The pitch processor: estimates the pitch of a captured chunk with aubio and
 * shifts a chunk's pitch with librosa. Both libraries are parameters: the
 * model states exactly what each of them is handed and what the processor
 * makes of the detector's answer.
 */
module AudioProcessing {
  import opened Wrappers
  import opened Pcm

  /** A chunk as handed to a library: mixed down to one channel, or left as rows. */
  datatype Signal = Mono(samples: seq<real>) | Rows(channels: nat, rows: seq<seq<real>>)

  /** Why a pitch could not be read from the detector's answer. */
  datatype DetectionError =
    | DetectorRaised(message: string)   // the pitch detector raised
    | EmptyDetectorOutput                // `[0]` on an empty output vector

  /**
   * aubio.pitch("default", buffer_size, hop_size, sample_rate) with the
   * processor's unit and tolerance, applied to one input: its output vector,
   * or the message of the exception it raises.
   */
  type PitchDetector = (AudioProcessor, Signal) -> Result<seq<real>, string>

  /** The arguments of librosa.effects.pitch_shift. */
  datatype ShiftArgs = ShiftArgs(y: Signal, sr: int, nSteps: real, nFft: nat)

  /** librosa.effects.pitch_shift: the shifted signal, or the message of the exception it raises. */
  type PitchShifter = ShiftArgs -> Result<seq<real>, string>

  /**
   * `pitch_detector(signal)[0]`: the first value of the detector's output
   * vector; the detector's exception, or IndexError on an empty vector, otherwise.
   */
  function FirstOutput(out: Result<seq<real>, string>): (r: Result<real, DetectionError>)
    ensures r.Success? <==> out.Success? && out.value != []
    ensures r.Success? ==> r.value == out.value[0]
    ensures out.Failure? ==> r == Failure(DetectorRaised(out.error))
    ensures out.Success? && out.value == [] ==> r == Failure(EmptyDetectorOutput)
  {
    match out
    case Failure(message) => Failure(DetectorRaised(message))
    case Success(values) => if |values| == 0 then Failure(EmptyDetectorOutput) else Success(values[0])
  }

  /**
   * What both processor methods hand on for a chunk: the exact mean of the
   * two channels of a stereo chunk, and any other chunk unchanged.
   */
  function SignalOf(chunk: Frame): (y: Signal)
    requires AllWidth(chunk.rows, chunk.channels)
    ensures chunk.channels == 2 <==> y.Mono?
    ensures y.Mono? ==> MixesDown(chunk.rows, y.samples)
    ensures y.Rows? ==> y.channels == chunk.channels && SameValues(chunk.rows, y.rows)
  {
    if chunk.channels == 2 then Mono(MeanMix(chunk.rows)) else Rows(chunk.channels, ToReals(chunk.rows))
  }

  /** The processor's configuration; the pitch detector it builds is the PitchDetector applied to it. */
  datatype AudioProcessor = AudioProcessor(bufferSize: int, hopSize: int, sampleRate: int, unit: string, tolerance: real)
  {
    /** get_chunk_pitch: the first value the detector outputs for the chunk's signal. */
    function GetChunkPitch(chunk: Frame, detect: PitchDetector): (r: Result<real, DetectionError>)
      requires AllWidth(chunk.rows, chunk.channels)
      ensures r.Success? <==> detect(this, SignalOf(chunk)).Success? && detect(this, SignalOf(chunk)).value != []
      ensures detect(this, SignalOf(chunk)).Failure? ==> r == Failure(DetectorRaised(detect(this, SignalOf(chunk)).error))
      ensures r.Success? ==> r.value == detect(this, SignalOf(chunk)).value[0]
    {
      FirstOutput(detect(this, SignalOf(chunk)))
    }

    /** The arguments shift_pitch hands to librosa: n_fft is the length of the chunk, so nothing is padded. */
    function ShiftRequest(chunk: Frame, semitones: real): (args: ShiftArgs)
      requires AllWidth(chunk.rows, chunk.channels)
      ensures args.sr == sampleRate && args.nSteps == semitones && args.nFft == |chunk.rows|
      ensures args.y == SignalOf(chunk)
      ensures args.y.Mono? ==> |args.y.samples| == args.nFft
    {
      ShiftArgs(SignalOf(chunk), sampleRate, semitones, |chunk.rows|)
    }

    /** shift_pitch: librosa's answer for ShiftRequest, an exception included. */
    function ShiftPitch(chunk: Frame, semitones: real, shift: PitchShifter): Result<seq<real>, string>
      requires AllWidth(chunk.rows, chunk.channels)
    {
      shift(ShiftRequest(chunk, semitones))
    }
  }

  /** AudioProcessor.__init__ with its defaults. */
  function NewAudioProcessor(bufferSize: int := 512, hopSize: int := 512, sampleRate: int := 44100,
                             unit: string := "Hz", tolerance: real := 0.8): (p: AudioProcessor)
    ensures p.bufferSize == bufferSize && p.hopSize == hopSize && p.sampleRate == sampleRate
    ensures p.unit == unit && p.tolerance == tolerance
  {
    AudioProcessor(bufferSize, hopSize, sampleRate, unit, tolerance)
  }

  /** `mono` holds, for each stereo row, the exact mean of its two samples. */
  ghost predicate MixesDown(rows: seq<seq<int16>>, mono: seq<real>)
  {
    && |mono| == |rows|
    && forall i :: 0 <= i < |rows| ==> |rows[i]| == 2 && 2.0 * mono[i] == rows[i][0] as real + rows[i][1] as real
  }

  /** `t` holds the values of `rows`, row by row. */
  ghost predicate SameValues(rows: seq<seq<int16>>, t: seq<seq<real>>)
  {
    && |t| == |rows|
    && forall i :: 0 <= i < |rows| ==> |t[i]| == |rows[i]| && forall k :: 0 <= k < |rows[i]| ==> t[i][k] == rows[i][k] as real
  }

  /** Integer rows as floats (exact). */
  function ToReals(rows: seq<seq<int16>>): (t: seq<seq<real>>)
    ensures SameValues(rows, t)
  {
    seq(|rows|, i requires 0 <= i < |rows| => IntsToReals(rows[i]))
  }

  /** A mixdown is determined by its rows, and stays within the range of the two channels. */
  lemma MixesDownBounds(rows: seq<seq<int16>>, mono: seq<real>, i: nat)
    requires MixesDown(rows, mono) && i < |rows|
    ensures mono == MeanMix(rows)
    ensures Min(rows[i][0], rows[i][1]) as real <= mono[i] <= Max(rows[i][0], rows[i][1]) as real
  {
    assert AllWidth(rows, 2);
    var m := MeanMix(rows);
    forall j | 0 <= j < |rows|
      ensures mono[j] == m[j]
    {
      assert 2.0 * mono[j] == 2.0 * m[j];
    }
    assert mono == m;
    MeanMixBetween(rows, i);
  }

  /** A stereo chunk reaches the detector as the channel means, one per row. */
  lemma StereoChunkSignal(chunk: Frame)
    requires AllWidth(chunk.rows, chunk.channels) && chunk.channels == 2
    ensures SignalOf(chunk) == Mono(MeanMix(chunk.rows))
    ensures |SignalOf(chunk).samples| == |chunk.rows|
  {
  }
}
