/**
 * The stand-alone Linux recorder script: resolve the monitor source, run
 * `parec` on it, and until the pipe ends copy every chunk read to a WAV file
 * while estimating the pitch of its integer stereo mixdown.
 */
module LinuxScript {
  import opened Wrappers
  import opened Pcm
  import opened Capture
  import opened PulseSinks
  import opened LinuxAudioStreams
  import AudioProcessing

  const ChunkSize: nat := 512
  const Rate: nat := 44100
  const Channels: nat := 2
  const OutputFile := "output.wav"

  /** Bytes requested per read: CHUNK_SIZE * CHANNELS * 2. */
  const ReadBytes: nat := ChunkSize * Channels * 2

  /**
   * get_default_sink_monitor: the monitor source of the default sink, or None
   * when no sink line names it; a sink line with fewer than two fields still raises.
   */
  method GetDefaultSinkMonitor(defaultSinkOut: string, sinkLines: seq<string>)
    returns (r: Result<Option<string>, StreamError>)
    ensures ResolveMonitor(defaultSinkOut, sinkLines).Monitor? ==>
      r == Success(Some(ResolveMonitor(defaultSinkOut, sinkLines).source))
    ensures ResolveMonitor(defaultSinkOut, sinkLines) == NoMatch ==> r == Success(None)
    ensures ResolveMonitor(defaultSinkOut, sinkLines).ShortLine? ==>
      r == Failure(SinkLineIndexError(ResolveMonitor(defaultSinkOut, sinkLines).line))
  {
    var scan := ScanSinks(defaultSinkOut, sinkLines);
    match scan
    case Monitor(m) => r := Success(Some(m));
    case NoMatch => r := Success(None);
    case ShortLine(i) => r := Failure(SinkLineIndexError(i));
  }

  // ---------------------------------------------------------------------
  // Integer mixdown and pitch of one chunk
  // ---------------------------------------------------------------------

  /** (l + r) / 2 truncated toward zero, as an int16. */
  function TruncMean(l: int16, r: int16): (m: int16)
    ensures m == TruncToInt((l as real + r as real) / 2.0)
  {
    var s := l + r;
    if s >= 0 then s / 2 else -((-s) / 2)
  }

  /** np.mean(samples.reshape(-1, 2), axis=1).astype(np.int16) */
  function MixTruncated(rows: seq<seq<int16>>): (m: seq<int16>)
    requires AllWidth(rows, 2)
    ensures |m| == |rows|
  {
    seq(|rows|, i requires 0 <= i < |rows| => TruncMean(rows[i][0], rows[i][1]))
  }

  /** The integer mixdown is the float channel mean truncated toward zero. */
  lemma MixTruncatedMean(rows: seq<seq<int16>>)
    requires AllWidth(rows, 2)
    ensures forall i :: 0 <= i < |rows| ==> MixTruncated(rows)[i] == TruncToInt(MeanMix(rows)[i])
  {
  }

  /**
   * Each mixed sample is the channel mean truncated toward zero, within one
   * half of the exact mean and between the two channel samples, so the cast
   * back to int16 never wraps.
   */
  lemma MixTruncatedBounds(rows: seq<seq<int16>>, i: nat)
    requires AllWidth(rows, 2) && i < |rows|
    ensures var l, r, m := rows[i][0], rows[i][1], MixTruncated(rows)[i];
      && Min(l, r) <= m <= Max(l, r)
      && -1 <= 2 * m - (l + r) <= 1
      && (l + r >= 0 ==> 0 <= (l + r) - 2 * m) && (l + r <= 0 ==> (l + r) - 2 * m <= 0)
  {
  }

  /**
   * The pitch detector: aubio's "default" method on CHUNK_SIZE-sample hops at
   * RATE, in Hz, with silence threshold -40 dB, applied to one input: its
   * output vector, or the message of the exception it raises.
   */
  type Detector = seq<real> -> Result<seq<real>, string>

  datatype ChunkError =
    | Undecodable(cause: DecodeError)                       // np.frombuffer / reshape(-1, 2)
    | DetectionFailed(problem: AudioProcessing.DetectionError)  // the detector raised, or `[0]` found nothing

  /** process_audio_chunk: decode, mix down to int16 mono, and report the detector's first output. */
  function ProcessAudioChunk(chunk: seq<byte>, detect: Detector): Result<real, ChunkError>
  {
    match FromBuffer(chunk, Channels)
    case Failure(e) => Failure(Undecodable(e))
    case Success(frame) =>
      match AudioProcessing.FirstOutput(detect(IntsToReals(MixTruncated(frame.rows))))
      case Failure(e) => Failure(DetectionFailed(e))
      case Success(pitch) => Success(pitch)
  }

  /** A chunk that is not whole 4-byte stereo frames is rejected before the detector runs. */
  lemma ProcessAudioChunkRejectsPartialFrames(chunk: seq<byte>, detect: Detector)
    requires |chunk| % 4 != 0
    ensures ProcessAudioChunk(chunk, detect).Failure? && ProcessAudioChunk(chunk, detect).error.Undecodable?
    ensures |chunk| % 2 != 0 ==> ProcessAudioChunk(chunk, detect) == Failure(Undecodable(BufferNotMultipleOfElement(|chunk|)))
  {
  }

  /** The detector's input for a chunk that decodes: the float mixdown. */
  function DetectorInput(chunk: seq<byte>): (mono: seq<real>)
    requires |chunk| % 4 == 0
    ensures 4 * |mono| == |chunk|
    ensures forall i :: 0 <= i < |mono| ==>
      mono[i] == TruncMean(DecodeSample(chunk[4 * i], chunk[4 * i + 1]),
                           DecodeSample(chunk[4 * i + 2], chunk[4 * i + 3])) as real
  {
    StereoChunkDecodes(chunk);
    var rows := FromBuffer(chunk, Channels).value.rows;
    var mono := IntsToReals(MixTruncated(rows));
    forall i | 0 <= i < |mono|
      ensures mono[i] == TruncMean(DecodeSample(chunk[4 * i], chunk[4 * i + 1]),
                                   DecodeSample(chunk[4 * i + 2], chunk[4 * i + 3])) as real
    {
      MixedFrameAt(chunk, i);
    }
    mono
  }

  /** Whole 4-byte frames always decode, one stereo row per frame. */
  lemma StereoChunkDecodes(chunk: seq<byte>)
    requires |chunk| % 4 == 0
    ensures FromBuffer(chunk, 2).Success? && 4 * |FromBuffer(chunk, 2).value.rows| == |chunk|
  {
    var n := |chunk| / 4;
    ExactQuotient(|chunk|, 4);
    assert |chunk| == (2 * n) * 2;
    MultipleOf(2 * n, 2);
    MultipleOf(n, 2);
    assert (|chunk| / 2) % 2 == 0;
  }

  lemma MixedFrameAt(chunk: seq<byte>, i: nat)
    requires |chunk| % 4 == 0 && 4 * i < |chunk|
    ensures 4 * i + 3 < |chunk| && FromBuffer(chunk, 2).Success?
    ensures MixTruncated(FromBuffer(chunk, 2).value.rows)[i] ==
      TruncMean(DecodeSample(chunk[4 * i], chunk[4 * i + 1]), DecodeSample(chunk[4 * i + 2], chunk[4 * i + 3]))
  {
    StereoChunkDecodes(chunk);
    var rows := FromBuffer(chunk, 2).value.rows;
    StereoRowAt(chunk, i);
    assert MixTruncated(rows)[i] == TruncMean(rows[i][0], rows[i][1]);
  }

  /** Row i of a decoded stereo chunk holds the samples of bytes 4i..4i+3. */
  lemma StereoRowAt(chunk: seq<byte>, i: nat)
    requires |chunk| % 4 == 0 && 4 * i < |chunk|
    ensures 4 * i + 3 < |chunk| && FromBuffer(chunk, 2).Success?
    ensures i < |FromBuffer(chunk, 2).value.rows| && |FromBuffer(chunk, 2).value.rows[i]| == 2
    ensures FromBuffer(chunk, 2).value.rows[i][0] == DecodeSample(chunk[4 * i], chunk[4 * i + 1])
    ensures FromBuffer(chunk, 2).value.rows[i][1] == DecodeSample(chunk[4 * i + 2], chunk[4 * i + 3])
  {
    StereoChunkDecodes(chunk);
    FromBufferAt(chunk, 2, i, 0);
    FromBufferAt(chunk, 2, i, 1);
  }

  /** On whole stereo frames the reported pitch is the first output of the detector on DetectorInput. */
  lemma ProcessAudioChunkInput(chunk: seq<byte>, detect: Detector)
    requires |chunk| % 4 == 0
    ensures detect(DetectorInput(chunk)).Success? && detect(DetectorInput(chunk)).value != [] ==>
      ProcessAudioChunk(chunk, detect) == Success(detect(DetectorInput(chunk)).value[0])
    ensures detect(DetectorInput(chunk)).Failure? ==>
      ProcessAudioChunk(chunk, detect) == Failure(DetectionFailed(AudioProcessing.DetectorRaised(detect(DetectorInput(chunk)).error)))
  {
  }

  // ---------------------------------------------------------------------
  // The recording loop
  // ---------------------------------------------------------------------

  /** How the recording loop ends. */
  datatype LoopExit =
    | EndOfStream                      // an empty read: `break`
    | Interrupted                      // KeyboardInterrupt: `pass`
    | ChunkRejected(cause: ChunkError)  // process_audio_chunk raised; propagates after `finally`

  /** A WAV file opened for writing with its header parameters and the frames written so far. */
  class WaveWriter {
    const nchannels: nat
    const sampwidth: nat
    const framerate: nat
    var frames: seq<byte>
    var closed: bool

    constructor Open(nchannels: nat, sampwidth: nat, framerate: nat)
      ensures this.nchannels == nchannels && this.sampwidth == sampwidth && this.framerate == framerate
      ensures frames == [] && !closed
    {
      this.nchannels := nchannels;
      this.sampwidth := sampwidth;
      this.framerate := framerate;
      frames := [];
      closed := false;
    }

    /** writeframes(data) */
    method WriteFrames(data: seq<byte>)
      modifies this
      ensures frames == old(frames) + data && closed == old(closed)
    {
      frames := frames + data;
    }

    method Close()
      modifies this
      ensures closed && frames == old(frames)
    {
      closed := true;
    }
  }

  /**
   * How the loop ends and how many chunks it wrote, when the recorder still has
   * `pending` to deliver at iteration i and the user interrupts at the start of
   * iteration interruptAt (if ever).
   */
  function LoopOutcome(pending: seq<byte>, detect: Detector, interruptAt: Option<nat>, i: nat): (LoopExit, nat)
    decreases |pending|
  {
    if interruptAt == Some(i) then (Interrupted, i)
    else
      var chunk := Take(pending, ReadBytes);
      if chunk == [] then (EndOfStream, i)
      else
        var processed := ProcessAudioChunk(chunk, detect);
        if processed.Failure? then (ChunkRejected(processed.error), i + 1)
        else LoopOutcome(Drop(pending, ReadBytes), detect, interruptAt, i + 1)
  }

  /** One iteration that neither stops nor is interrupted leaves the outcome unchanged. */
  lemma LoopOutcomeStep(pending: seq<byte>, detect: Detector, interruptAt: Option<nat>, i: nat)
    requires interruptAt != Some(i) && Take(pending, ReadBytes) != []
    requires ProcessAudioChunk(Take(pending, ReadBytes), detect).Success?
    ensures LoopOutcome(pending, detect, interruptAt, i) == LoopOutcome(Drop(pending, ReadBytes), detect, interruptAt, i + 1)
  {
  }

  /** The three ways an iteration ends the loop. */
  lemma LoopOutcomeExit(pending: seq<byte>, detect: Detector, interruptAt: Option<nat>, i: nat)
    ensures interruptAt == Some(i) ==> LoopOutcome(pending, detect, interruptAt, i) == (Interrupted, i)
    ensures interruptAt != Some(i) && Take(pending, ReadBytes) == [] ==>
      LoopOutcome(pending, detect, interruptAt, i) == (EndOfStream, i)
    ensures interruptAt != Some(i) && Take(pending, ReadBytes) != [] &&
            ProcessAudioChunk(Take(pending, ReadBytes), detect).Failure? ==>
      LoopOutcome(pending, detect, interruptAt, i) ==
        (ChunkRejected(ProcessAudioChunk(Take(pending, ReadBytes), detect).error), i + 1)
  {
  }

  /** Read number i, appended to the first i reads, gives the first i + 1. */
  lemma ReadStep(source: seq<byte>, i: nat)
    ensures AfterReads(source, ReadBytes, i + 1) == Drop(AfterReads(source, ReadBytes, i), ReadBytes)
    ensures ConcatReads(source, ReadBytes, i + 1) ==
            ConcatReads(source, ReadBytes, i) + Take(AfterReads(source, ReadBytes, i), ReadBytes)
  {
  }

  /**
   * The `try: while True` loop with `finally: process.terminate()`: each
   * iteration reads ReadBytes bytes, stops on an empty read, writes the chunk
   * unmodified, then processes it.
   */
  method RecordLoop(process: RecorderProcess, wf: WaveWriter, detect: Detector, interruptAt: Option<nat>)
    returns (exit: LoopExit, ghost chunks: nat)
    requires process != wf as object && wf.frames == []
    modifies process, wf
    ensures (exit, chunks) == LoopOutcome(old(process.pending), detect, interruptAt, 0)
    ensures wf.frames == ConcatReads(old(process.pending), ReadBytes, chunks)
    ensures process.terminated && wf.closed == old(wf.closed)
  {
    ghost var source := process.pending;
    var i := 0;
    while true
      invariant process.pending == AfterReads(source, ReadBytes, i)
      invariant wf.frames == ConcatReads(source, ReadBytes, i)
      invariant LoopOutcome(process.pending, detect, interruptAt, i) == LoopOutcome(source, detect, interruptAt, 0)
      invariant wf.closed == old(wf.closed)
      decreases |process.pending|
    {
      if interruptAt == Some(i) {
        exit, chunks := Interrupted, i;
        break;
      }
      ghost var before := process.pending;
      LoopOutcomeExit(before, detect, interruptAt, i);
      ReadStep(source, i);
      var chunk := process.Read(ReadBytes);
      if |chunk| == 0 {
        exit, chunks := EndOfStream, i;
        break;
      }
      wf.WriteFrames(chunk);
      var pitch := ProcessAudioChunk(chunk, detect);
      if pitch.Failure? {
        exit, chunks := ChunkRejected(pitch.error), i + 1;
        break;
      }
      LoopOutcomeStep(before, detect, interruptAt, i);
      i := i + 1;
    }
    process.Terminate();
  }

  /** At the end of the stream the file holds every byte the recorder produced, in order. */
  lemma EndOfStreamWritesEverything(source: seq<byte>, detect: Detector, interruptAt: Option<nat>)
    requires LoopOutcome(source, detect, interruptAt, 0).0 == EndOfStream
    ensures ConcatReads(source, ReadBytes, LoopOutcome(source, detect, interruptAt, 0).1) == source
  {
    var k := LoopOutcome(source, detect, interruptAt, 0).1;
    EndOfStreamDrained(source, source, detect, interruptAt, 0);
    ConcatReadsThenRest(source, ReadBytes, k);
  }

  lemma {:induction false} EndOfStreamDrained(source: seq<byte>, pending: seq<byte>, detect: Detector,
                                              interruptAt: Option<nat>, i: nat)
    requires pending == AfterReads(source, ReadBytes, i)
    requires LoopOutcome(pending, detect, interruptAt, i).0 == EndOfStream
    ensures AfterReads(source, ReadBytes, LoopOutcome(pending, detect, interruptAt, i).1) == []
    decreases |pending|
  {
    LoopOutcomeExit(pending, detect, interruptAt, i);
    var chunk := Take(pending, ReadBytes);
    if interruptAt == Some(i) {
      assert false;
    } else if chunk == [] {
      EmptyReadMeansExhausted(pending, ReadBytes);
    } else if ProcessAudioChunk(chunk, detect).Failure? {
      assert false;
    } else {
      LoopOutcomeStep(pending, detect, interruptAt, i);
      var rest := Drop(pending, ReadBytes);
      assert AfterReads(source, ReadBytes, i + 1) == rest;
      EndOfStreamDrained(source, rest, detect, interruptAt, i + 1);
    }
  }

  /** The outcome of running the script. */
  datatype ScriptExit =
    | LoopEnded(loopExit: LoopExit)          // the loop stopped; "Streaming stopped." is printed only when it did not raise
    | ResolutionFailed(error: StreamError)   // IndexError from the sink scan
    | NoMonitor                              // Exception("Could not find the monitor source for the default sink.")

  /**
   * The script from top to bottom: resolve the monitor (raising before any
   * process exists when there is none), spawn parec, open output.wav with
   * CHANNELS channels of 2 bytes at RATE, and run the loop.
   */
  method RunScript(defaultSinkOut: string, sinkLines: seq<string>, recorderOutput: seq<byte>,
                   detect: Detector, interruptAt: Option<nat>)
    returns (exit: ScriptExit, process: RecorderProcess?, wf: WaveWriter?)
    ensures ResolveMonitor(defaultSinkOut, sinkLines) == NoMatch ==> exit == NoMonitor && process == null
    ensures ResolveMonitor(defaultSinkOut, sinkLines).ShortLine? ==>
      exit == ResolutionFailed(SinkLineIndexError(ResolveMonitor(defaultSinkOut, sinkLines).line)) && process == null
    ensures ResolveMonitor(defaultSinkOut, sinkLines).Monitor? ==>
      var (loopExit, chunks) := LoopOutcome(recorderOutput, detect, interruptAt, 0);
      && exit == LoopEnded(loopExit)
      && process != null && fresh(process) && process.terminated
      && process.command == ParecCommand(ResolveMonitor(defaultSinkOut, sinkLines).source, Rate, Channels)
      && wf != null && fresh(wf) && wf.closed
      && wf.nchannels == Channels && wf.sampwidth == 2 && wf.framerate == Rate
      && wf.frames == ConcatReads(recorderOutput, ReadBytes, chunks)
  {
    process, wf := null, null;
    var device := GetDefaultSinkMonitor(defaultSinkOut, sinkLines);
    if device.Failure? {
      return ResolutionFailed(device.error), null, null;
    }
    if device.value.None? {
      return NoMonitor, null, null;
    }
    var command := ParecCommand(device.value.value, Rate, Channels);
    process := new RecorderProcess.Spawn(command, recorderOutput);
    wf := new WaveWriter.Open(Channels, 2, Rate);
    var loopExit, chunks := RecordLoop(process, wf, detect, interruptAt);
    wf.Close();
    exit := LoopEnded(loopExit);
  }
}
