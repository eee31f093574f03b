/**
 * The pipeline entry point: pick the capture back end for the platform,
 * stream chunks until the duration runs out or the user interrupts, report
 * each chunk's pitch, pitch-shift it, and write the shifted audio to
 * output/<output_file>_<semitones>.wav at the stream's rate.
 */
module StreamMain {
  import opened Wrappers
  import opened Text
  import opened Pcm
  import opened Capture
  import opened PulseSinks
  import opened LinuxAudioStreams
  import opened WindowsAudioStreams
  import opened PortAudio
  import opened AudioProcessing

  const OutputFolder := "output"

  // ---------------------------------------------------------------------
  // Platform, duration, output name, sample cast
  // ---------------------------------------------------------------------

  datatype Platform = LinuxPlatform | WindowsPlatform | Unsupported(name: string)

  /** platform.system().lower(), tested for "linux" before "windows". */
  function SelectPlatform(system: string): (p: Platform)
    ensures p == LinuxPlatform <==> Contains(Lower(system), "linux")
    ensures p == WindowsPlatform <==> !Contains(Lower(system), "linux") && Contains(Lower(system), "windows")
    ensures p.Unsupported? ==> p.name == Lower(system)
  {
    var current := Lower(system);
    if Contains(current, "linux") then LinuxPlatform
    else if Contains(current, "windows") then WindowsPlatform
    else Unsupported(current)
  }

  /** How long to record: a negative duration means until interrupted. */
  datatype Limit = Forever | Seconds(seconds: int)

  function RecordingLimit(duration: int): (l: Limit)
    ensures l == Forever <==> duration < 0
    ensures l.Seconds? ==> l.seconds == duration
  {
    if duration < 0 then Forever else Seconds(duration)
  }

  /** The loop condition (time.time() - start_time) < duration. */
  predicate Within(elapsed: real, limit: Limit)
  {
    limit.Forever? || elapsed < limit.seconds as real
  }

  /** f"{OUTPUT_FOLDER}/{output_file}_{semitones}.wav" */
  function OutputPath(outputFile: string, semitones: int): (p: string)
    ensures StartsWith(p, OutputFolder + "/" + outputFile + "_") && EndsWith(p, ".wav")
    ensures |p| == |OutputFolder| + |outputFile| + |IntToString(semitones)| + 6
  {
    OutputFolder + "/" + outputFile + "_" + IntToString(semitones) + ".wav"
  }

  /** Different shifts recorded under the same name go to different files. */
  lemma OutputPathInjective(outputFile: string, m: int, n: int)
    requires OutputPath(outputFile, m) == OutputPath(outputFile, n)
    ensures m == n
  {
    var prefix := OutputFolder + "/" + outputFile + "_";
    var p := OutputPath(outputFile, m);
    assert p == prefix + IntToString(m) + ".wav";
    assert p == prefix + IntToString(n) + ".wav";
    assert |IntToString(m)| == |IntToString(n)|;
    assert IntToString(m) == p[|prefix|..|prefix| + |IntToString(m)|];
    assert IntToString(n) == p[|prefix|..|prefix| + |IntToString(n)|];
    IntToStringInjective(m, n);
  }

  /**
   * .astype(np.int16) on one float: truncation toward zero, kept as is in
   * range and reduced modulo 2^16 outside it.
   */
  function ToInt16(x: real): (v: int16)
    ensures -0x8000 <= TruncToInt(x) < 0x8000 ==> v == TruncToInt(x)
    ensures (TruncToInt(x) - v) % 0x10000 == 0
  {
    var u := TruncToInt(x) % 0x10000;
    if u < 0x8000 then u else u - 0x10000
  }

  /** .astype(np.int16) on a float array; the contract is the pointwise definition of the cast. */
  function CastAll(xs: seq<real>): (v: seq<int16>)
    ensures |v| == |xs| && forall i :: 0 <= i < |xs| ==> v[i] == ToInt16(xs[i])
  {
    seq(|xs|, i requires 0 <= i < |xs| => ToInt16(xs[i]))
  }

  /** np.concatenate(chunks, axis=0) of one-dimensional arrays (defined on a non-empty list only). */
  function Concat(chunks: seq<seq<real>>): (all: seq<real>)
  {
    if chunks == [] then [] else Concat(chunks[..|chunks| - 1]) + chunks[|chunks| - 1]
  }

  /** Concatenation keeps every chunk, whole and in order. */
  lemma {:induction false} ConcatAt(chunks: seq<seq<real>>, j: nat, k: nat)
    requires j < |chunks| && k < |chunks[j]|
    ensures |Concat(chunks[..j])| + k < |Concat(chunks)|
    ensures Concat(chunks)[|Concat(chunks[..j])| + k] == chunks[j][k]
    decreases |chunks|
  {
    var last := |chunks| - 1;
    assert chunks[..last + 1] == chunks;
    if j < last {
      assert chunks[..last][..j] == chunks[..j];
      ConcatAt(chunks[..last], j, k);
    } else {
      assert chunks[..j] == chunks[..last];
    }
  }

  // ---------------------------------------------------------------------
  // The recording loop, as a specification
  // ---------------------------------------------------------------------

  /** The processor method the loop calls for the pitch. */
  datatype PitchCall = GetChunkNote | GetChunkPitch

  /** The wall clock and the user: the elapsed time at the k-th loop test, and the iteration the user interrupts. */
  datatype Clock = Clock(elapsed: nat -> real, interruptAt: nat)

  /** Everything one recording session depends on. */
  datatype Session = Session(
    processor: AudioProcessor,
    readSize: nat,
    channels: nat,
    call: PitchCall,
    semitones: int,
    detect: PitchDetector,
    shift: PitchShifter,
    clock: Clock,
    limit: Limit)

  datatype MainError =
    | StreamFailed(cause: StreamError)
    | PlatformNotSupported(name: string)    // NotImplementedError
    | NoSuchAttribute(name: string)         // AttributeError on the processor
    | ProcessingFailed(problem: DetectionError)
    | ShifterRaised(message: string)        // librosa's pitch_shift raised
    | NothingToConcatenate                  // ValueError from np.concatenate([])

  datatype LoopEnd = TimeUp | Interrupted | Raised(error: MainError)

  /** The loop body on the chunk read: the pitch (printed, then dropped), then the shifted chunk. */
  function Iteration(s: Session, chunk: Result<Frame, StreamError>): Result<seq<real>, MainError>
    requires chunk.Success? ==> AllWidth(chunk.value.rows, chunk.value.channels)
  {
    if chunk.Failure? then Failure(StreamFailed(chunk.error))
    else if s.call.GetChunkNote? then Failure(NoSuchAttribute("get_chunk_note"))
    else match s.processor.GetChunkPitch(chunk.value, s.detect)
      case Failure(e) => Failure(ProcessingFailed(e))
      case Success(_) =>
        match s.processor.ShiftPitch(chunk.value, s.semitones as real, s.shift)
        case Failure(message) => Failure(ShifterRaised(message))
        case Success(y) => Success(y)
  }

  /**
   * An iteration completes exactly when the read, the pitch call and the
   * shift all succeed, with the shifted chunk; otherwise the first exception
   * propagates, the missing get_chunk_note attribute included.
   */
  lemma IterationCases(s: Session, chunk: Result<Frame, StreamError>)
    requires chunk.Success? ==> AllWidth(chunk.value.rows, chunk.value.channels)
    ensures Iteration(s, chunk).Success? <==>
      && chunk.Success? && s.call.GetChunkPitch?
      && s.processor.GetChunkPitch(chunk.value, s.detect).Success?
      && s.processor.ShiftPitch(chunk.value, s.semitones as real, s.shift).Success?
    ensures chunk.Failure? ==> Iteration(s, chunk) == Failure(StreamFailed(chunk.error))
    ensures chunk.Success? && s.call.GetChunkNote? ==> Iteration(s, chunk) == Failure(NoSuchAttribute("get_chunk_note"))
    ensures chunk.Success? && s.call.GetChunkPitch? ==>
      var pitch := s.processor.GetChunkPitch(chunk.value, s.detect);
      var y := s.processor.ShiftPitch(chunk.value, s.semitones as real, s.shift);
      && (pitch.Failure? ==> Iteration(s, chunk) == Failure(ProcessingFailed(pitch.error)))
      && (pitch.Success? && y.Failure? ==> Iteration(s, chunk) == Failure(ShifterRaised(y.error)))
      && (pitch.Success? && y.Success? ==> Iteration(s, chunk) == Success(y.value))
  {
  }

  /** The chunk read at an iteration whose stream still holds `pending`. */
  function NextChunk(s: Session, pending: seq<byte>): (r: Result<Frame, StreamError>)
    ensures r.Success? ==> AllWidth(r.value.rows, r.value.channels)
  {
    DecodeRead(Take(pending, s.readSize), s.channels)
  }

  /**
   * The loop from iteration k on, with `pending` left in the stream and the
   * shifted chunks `shifted` collected so far: how it ends and what it collected.
   */
  function SessionLoop(s: Session, pending: seq<byte>, k: nat, shifted: seq<seq<real>>): (LoopEnd, seq<seq<real>>)
    decreases s.clock.interruptAt - k
  {
    if k >= s.clock.interruptAt then (Interrupted, shifted)
    else if !Within(s.clock.elapsed(k), s.limit) then (TimeUp, shifted)
    else match Iteration(s, NextChunk(s, pending))
      case Failure(e) => (Raised(e), shifted)
      case Success(y) => SessionLoop(s, Drop(pending, s.readSize), k + 1, shifted + [y])
  }

  datatype WavFile = WavFile(path: string, rate: int, samples: seq<int16>)

  datatype MainExit =
    | Wrote(file: WavFile)
    | ExitedWithError(cause: MainError)   // traceback printed, then exit(1)
    | Crashed(error: MainError)           // an exception main does not catch

  /** What follows the loop once `finally` has stopped the stream. */
  function Finish(end: LoopEnd, shifted: seq<seq<real>>, path: string, rate: int): (r: MainExit)
    ensures r.Wrote? <==> !end.Raised? && shifted != []
    ensures r.Wrote? ==> r.file == WavFile(path, rate, CastAll(Concat(shifted)))
    ensures end.Raised? ==> r == ExitedWithError(end.error)
    ensures !end.Raised? && shifted == [] ==> r == Crashed(NothingToConcatenate)
  {
    if end.Raised? then ExitedWithError(end.error)
    else if shifted == [] then Crashed(NothingToConcatenate)
    else Wrote(WavFile(path, rate, CastAll(Concat(shifted))))
  }

  /** The inputs main's capture back ends read: pactl's output and parec's, or the PyAudio device tables and the capture. */
  datatype Environment = Environment(
    defaultSinkOut: string,
    sinkLines: seq<string>,
    recorderOutput: seq<byte>,
    windows: WindowsAudio,
    captured: seq<byte>)

  /** The keyword arguments of main. */
  datatype MainArgs = MainArgs(chunkSize: nat, sampleRate: nat, semitones: int, duration: int, outputFile: string)

  /** The processor and loop inputs main builds; both back ends use two channels. */
  function SessionFor(args: MainArgs, call: PitchCall, detect: PitchDetector, shift: PitchShifter, clock: Clock): Session
  {
    Session(NewAudioProcessor(args.chunkSize, args.chunkSize, args.sampleRate), ChunkBytes(args.chunkSize, 2), 2,
            call, args.semitones, detect, shift, clock, RecordingLimit(args.duration))
  }

  /** How main ends, given everything it reads. */
  function MainOutcome(system: string, env: Environment, args: MainArgs, call: PitchCall,
                       detect: PitchDetector, shift: PitchShifter, clock: Clock): MainExit
  {
    var s := SessionFor(args, call, detect, shift, clock);
    var path := OutputPath(args.outputFile, args.semitones);
    match SelectPlatform(system)
    case Unsupported(name) => ExitedWithError(PlatformNotSupported(name))
    case LinuxPlatform =>
      (match ResolveMonitor(env.defaultSinkOut, env.sinkLines)
       case NoMatch => ExitedWithError(StreamFailed(MonitorNotFound))
       case ShortLine(line) => ExitedWithError(StreamFailed(SinkLineIndexError(line)))
       case Monitor(_) =>
         var (end, shifted) := SessionLoop(s, env.recorderOutput, 0, []);
         Finish(end, shifted, path, args.sampleRate))
    case WindowsPlatform =>
      if SelectLoopback(env.windows).Failure? then
        // start_stream raised; `finally` calls stop_stream on a stream that never started
        Crashed(StreamFailed(NotRunning))
      else
        var (end, shifted) := SessionLoop(s, env.captured, 0, []);
        Finish(end, shifted, path, args.sampleRate)
  }

  // ---------------------------------------------------------------------
  // Properties of the pipeline
  // ---------------------------------------------------------------------

  /** With no duration the loop ends only by interruption or an exception. */
  lemma {:induction false} ForeverNeverTimesUp(s: Session, pending: seq<byte>, k: nat, shifted: seq<seq<real>>)
    requires s.limit == Forever
    ensures SessionLoop(s, pending, k, shifted).0 != TimeUp
    decreases s.clock.interruptAt - k
  {
    if k < s.clock.interruptAt {
      var step := Iteration(s, NextChunk(s, pending));
      if step.Success? {
        ForeverNeverTimesUp(s, Drop(pending, s.readSize), k + 1, shifted + [step.value]);
      }
    }
  }

  /** Calling get_chunk_note, the loop collects nothing: it raises in its first iteration, or never runs one. */
  lemma GetChunkNoteCollectsNothing(s: Session, pending: seq<byte>, k: nat)
    requires s.call == GetChunkNote
    ensures SessionLoop(s, pending, k, []).0.Raised? || SessionLoop(s, pending, k, []).1 == []
  {
    if k < s.clock.interruptAt && Within(s.clock.elapsed(k), s.limit) {
      assert Iteration(s, NextChunk(s, pending)).Failure?;
    }
  }

  /** As written, main never writes the output file. */
  lemma MainAsWrittenNeverWrites(system: string, env: Environment, args: MainArgs,
                                 detect: PitchDetector, shift: PitchShifter, clock: Clock)
    ensures !MainOutcome(system, env, args, GetChunkNote, detect, shift, clock).Wrote?
  {
    var s := SessionFor(args, GetChunkNote, detect, shift, clock);
    GetChunkNoteCollectsNothing(s, env.recorderOutput, 0);
    GetChunkNoteCollectsNothing(s, env.captured, 0);
  }

  /** The chunk read at iteration j from a stream that started with `source`. */
  function ChunkAt(s: Session, source: seq<byte>, j: nat): Result<Frame, StreamError>
  {
    NextChunk(s, AfterReads(source, s.readSize, j))
  }

  /** The shifted chunk of iteration j, when that iteration completes. */
  function ShiftedAt(s: Session, source: seq<byte>, j: nat): seq<real>
  {
    var step := Iteration(s, ChunkAt(s, source, j));
    if step.Success? then step.value else []
  }

  /** Iterations k up to n all run inside the time limit and complete. */
  ghost predicate CompletesFrom(s: Session, source: seq<byte>, k: nat, n: nat)
  {
    forall j :: k <= j < n ==> Within(s.clock.elapsed(j), s.limit) && Iteration(s, ChunkAt(s, source, j)).Success?
  }

  /** The shifted chunks of iterations k up to n, in order. */
  function ShiftedRange(s: Session, source: seq<byte>, k: nat, n: nat): (r: seq<seq<real>>)
    ensures |r| == if k <= n then n - k else 0
    decreases n - k
  {
    if k >= n then [] else [ShiftedAt(s, source, k)] + ShiftedRange(s, source, k + 1, n)
  }

  /** An iteration that completes hands the rest of the stream to the next one. */
  lemma SessionLoopStep(s: Session, source: seq<byte>, k: nat, shifted: seq<seq<real>>)
    requires k < s.clock.interruptAt && Within(s.clock.elapsed(k), s.limit)
    requires Iteration(s, ChunkAt(s, source, k)).Success?
    ensures SessionLoop(s, AfterReads(source, s.readSize, k), k, shifted)
         == SessionLoop(s, AfterReads(source, s.readSize, k + 1), k + 1, shifted + [ShiftedAt(s, source, k)])
  {
  }

  /** The range of shifted chunks starting at k starts with chunk k. */
  lemma ShiftedRangeCons(s: Session, source: seq<byte>, k: nat, n: nat)
    requires k < n
    ensures ShiftedRange(s, source, k, n) == [ShiftedAt(s, source, k)] + ShiftedRange(s, source, k + 1, n)
  {
  }

  /** The loop stops at iteration n: the user interrupts, the time is up, or the iteration raises. */
  ghost predicate StopsAt(s: Session, source: seq<byte>, n: nat)
  {
    || n == s.clock.interruptAt
    || (n < s.clock.interruptAt
        && (!Within(s.clock.elapsed(n), s.limit) || Iteration(s, ChunkAt(s, source, n)).Failure?))
  }

  /** How the loop ends when it stops at iteration n. */
  function EndAt(s: Session, source: seq<byte>, n: nat): LoopEnd
    requires StopsAt(s, source, n)
  {
    if n >= s.clock.interruptAt then Interrupted
    else if !Within(s.clock.elapsed(n), s.limit) then TimeUp
    else Raised(Iteration(s, ChunkAt(s, source, n)).error)
  }

  /** The first iteration at or after k at which the loop stops. */
  function StopIteration(s: Session, source: seq<byte>, k: nat): (n: nat)
    requires k <= s.clock.interruptAt
    ensures k <= n <= s.clock.interruptAt && StopsAt(s, source, n) && CompletesFrom(s, source, k, n)
    decreases s.clock.interruptAt - k
  {
    if k == s.clock.interruptAt || !Within(s.clock.elapsed(k), s.limit) || Iteration(s, ChunkAt(s, source, k)).Failure? then k
    else StopIteration(s, source, k + 1)
  }

  /** At the iteration where it stops, the loop ends as EndAt says, collecting nothing more. */
  lemma SessionLoopStops(s: Session, source: seq<byte>, n: nat, shifted: seq<seq<real>>)
    requires StopsAt(s, source, n)
    ensures SessionLoop(s, AfterReads(source, s.readSize, n), n, shifted) == (EndAt(s, source, n), shifted)
  {
  }

  /** One completed iteration puts its shifted chunk in front of what the rest of the loop collects. */
  lemma LoopCollectsStep(s: Session, source: seq<byte>, k: nat, n: nat, end: LoopEnd, shifted: seq<seq<real>>)
    requires k < n && k < s.clock.interruptAt && Within(s.clock.elapsed(k), s.limit)
    requires Iteration(s, ChunkAt(s, source, k)).Success?
    requires SessionLoop(s, AfterReads(source, s.readSize, k + 1), k + 1, shifted + [ShiftedAt(s, source, k)])
          == (end, (shifted + [ShiftedAt(s, source, k)]) + ShiftedRange(s, source, k + 1, n))
    ensures SessionLoop(s, AfterReads(source, s.readSize, k), k, shifted) == (end, shifted + ShiftedRange(s, source, k, n))
  {
    var y := ShiftedAt(s, source, k);
    SessionLoopStep(s, source, k, shifted);
    ShiftedRangeCons(s, source, k, n);
    var later := ShiftedRange(s, source, k + 1, n);
    assert (shifted + [y]) + later == shifted + ([y] + later);
  }

  /**
   * From iteration k on, the loop runs up to its first stopping iteration n,
   * collects exactly the shifted chunks of iterations k up to n, in capture
   * order, and ends as iteration n says.
   */
  lemma {:induction false} LoopCollectsUntilStop(s: Session, source: seq<byte>, k: nat, shifted: seq<seq<real>>)
    requires k <= s.clock.interruptAt
    ensures var n := StopIteration(s, source, k);
      SessionLoop(s, AfterReads(source, s.readSize, k), k, shifted) == (EndAt(s, source, n), shifted + ShiftedRange(s, source, k, n))
    decreases s.clock.interruptAt - k
  {
    var n := StopIteration(s, source, k);
    if k < n {
      assert StopIteration(s, source, k + 1) == n;
      assert Within(s.clock.elapsed(k), s.limit) && Iteration(s, ChunkAt(s, source, k)).Success?;
      LoopCollectsUntilStop(s, source, k + 1, shifted + [ShiftedAt(s, source, k)]);
      LoopCollectsStep(s, source, k, n, EndAt(s, source, n), shifted);
    } else {
      SessionLoopStops(s, source, n, shifted);
      assert shifted + ShiftedRange(s, source, k, n) == shifted;
    }
  }

  /** When iterations k up to n complete and the loop stops at n, n is the first stopping iteration from k. */
  lemma {:induction false} StopIterationAt(s: Session, source: seq<byte>, k: nat, n: nat)
    requires k <= n && StopsAt(s, source, n) && CompletesFrom(s, source, k, n)
    ensures k <= s.clock.interruptAt && StopIteration(s, source, k) == n
    decreases n - k
  {
    if k < n {
      assert Within(s.clock.elapsed(k), s.limit) && Iteration(s, ChunkAt(s, source, k)).Success?;
      assert CompletesFrom(s, source, k + 1, n);
      StopIterationAt(s, source, k + 1, n);
    }
  }

  /** In every session the loop stops at its first stopping iteration, having collected the chunks before it. */
  lemma SessionLoopOutcome(s: Session, source: seq<byte>)
    ensures var n := StopIteration(s, source, 0);
      SessionLoop(s, source, 0, []) == (EndAt(s, source, n), ShiftedRange(s, source, 0, n))
  {
    var n := StopIteration(s, source, 0);
    LoopCollectsUntilStop(s, source, 0, []);
    assert AfterReads(source, s.readSize, 0) == source;
    assert [] + ShiftedRange(s, source, 0, n) == ShiftedRange(s, source, 0, n);
  }

  /** The bytes the platform's capture back end delivers. */
  function SourceFor(system: string, env: Environment): seq<byte>
  {
    if SelectPlatform(system) == LinuxPlatform then env.recorderOutput else env.captured
  }

  /** The platform is supported and its stream starts. */
  predicate StreamStarts(system: string, env: Environment)
  {
    || (SelectPlatform(system) == LinuxPlatform && ResolveMonitor(env.defaultSinkOut, env.sinkLines).Monitor?)
    || (SelectPlatform(system) == WindowsPlatform && SelectLoopback(env.windows).Success?)
  }

  /**
   * Calling get_chunk_pitch, a run whose stream starts and whose first n >= 1
   * iterations complete before the user interrupts or the duration runs out
   * writes those n shifted chunks, in order, cast to int16, to
   * output/<output_file>_<semitones>.wav at the requested rate.
   */
  lemma MainWritesShiftedChunks(system: string, env: Environment, args: MainArgs,
                                detect: PitchDetector, shift: PitchShifter, clock: Clock, n: nat)
    requires StreamStarts(system, env)
    requires 1 <= n <= clock.interruptAt
    requires n == clock.interruptAt || !Within(clock.elapsed(n), RecordingLimit(args.duration))
    requires CompletesFrom(SessionFor(args, GetChunkPitch, detect, shift, clock), SourceFor(system, env), 0, n)
    ensures MainOutcome(system, env, args, GetChunkPitch, detect, shift, clock)
      == Wrote(WavFile(OutputPath(args.outputFile, args.semitones), args.sampleRate,
                       CastAll(Concat(ShiftedRange(SessionFor(args, GetChunkPitch, detect, shift, clock),
                                                   SourceFor(system, env), 0, n)))))
  {
    var s := SessionFor(args, GetChunkPitch, detect, shift, clock);
    var source := SourceFor(system, env);
    assert StopsAt(s, source, n);
    StopIterationAt(s, source, 0, n);
    SessionLoopOutcome(s, source);
    assert !EndAt(s, source, n).Raised?;
    assert SessionLoop(s, source, 0, []) == (EndAt(s, source, n), ShiftedRange(s, source, 0, n));
  }

  /** Interrupted before the first chunk, or out of time at once, main has nothing to write and crashes. */
  lemma NoChunkNoFile(s: Session, pending: seq<byte>)
    requires s.clock.interruptAt == 0 || !Within(s.clock.elapsed(0), s.limit)
    ensures var (end, shifted) := SessionLoop(s, pending, 0, []);
      Finish(end, shifted, "", 0) == Crashed(NothingToConcatenate)
  {
  }

  // ---------------------------------------------------------------------
  // The imperative pipeline
  // ---------------------------------------------------------------------

  /** The `while` loop of main over a running Linux stream. */
  method LinuxSession(stream: LinuxAudioStream, s: Session) returns (end: LoopEnd, shifted: seq<seq<real>>)
    requires stream.Valid() && stream.running
    requires s.readSize == stream.ReadSize() && s.channels == stream.channels
    modifies stream.Repr
    ensures stream.Valid() && stream.running && stream.Repr == old(stream.Repr) && stream.streamProcess == old(stream.streamProcess)
    ensures (end, shifted) == SessionLoop(s, old(stream.Pending()), 0, [])
  {
    var k := 0;
    shifted := [];
    while true
      invariant stream.Valid() && stream.running && stream.Repr == old(stream.Repr) && stream.streamProcess == old(stream.streamProcess)
      invariant SessionLoop(s, stream.Pending(), k, shifted) == SessionLoop(s, old(stream.Pending()), 0, [])
      decreases s.clock.interruptAt - k
    {
      if k >= s.clock.interruptAt {
        end := Interrupted;
        break;
      }
      if !Within(s.clock.elapsed(k), s.limit) {
        end := TimeUp;
        break;
      }
      var chunk := stream.StreamAudioChunk();
      var step := Iteration(s, chunk);
      if step.Failure? {
        end := Raised(step.error);
        break;
      }
      shifted := shifted + [step.value];
      k := k + 1;
    }
  }

  /** The `while` loop of main over a running Windows stream. */
  method WindowsSession(stream: WindowsAudioStream, s: Session) returns (end: LoopEnd, shifted: seq<seq<real>>)
    requires stream.Valid() && stream.running
    requires s.readSize == stream.ReadSize() && s.channels == stream.channels
    modifies stream.Repr
    ensures stream.Valid() && stream.running && stream.Repr == old(stream.Repr) && stream.stream == old(stream.stream)
    ensures (end, shifted) == SessionLoop(s, old(stream.Pending()), 0, [])
  {
    var k := 0;
    shifted := [];
    while true
      invariant stream.Valid() && stream.running && stream.Repr == old(stream.Repr) && stream.stream == old(stream.stream)
      invariant SessionLoop(s, stream.Pending(), k, shifted) == SessionLoop(s, old(stream.Pending()), 0, [])
      decreases s.clock.interruptAt - k
    {
      if k >= s.clock.interruptAt {
        end := Interrupted;
        break;
      }
      if !Within(s.clock.elapsed(k), s.limit) {
        end := TimeUp;
        break;
      }
      var chunk := stream.StreamAudioChunk();
      var step := Iteration(s, chunk);
      if step.Failure? {
        end := Raised(step.error);
        break;
      }
      shifted := shifted + [step.value];
      k := k + 1;
    }
  }

  /**
   * main(chunk_size, sample_rate, semitones, duration, output_file), with the
   * processor method the loop calls for the pitch as `call` (the source calls
   * get_chunk_note).
   */
  method RunMain(system: string, env: Environment, call: PitchCall, detect: PitchDetector, shift: PitchShifter, clock: Clock,
              chunkSize: nat := 2048, sampleRate: nat := 44100, semitones: int := 0, duration: int := -1,
              outputFile: string := "shifted_audio")
    returns (exit: MainExit, ghost lin: LinuxAudioStream?, ghost recorder: RecorderProcess?,
             ghost win: WindowsAudioStream?, ghost capture: CaptureStream?)
    ensures exit == MainOutcome(system, env, MainArgs(chunkSize, sampleRate, semitones, duration, outputFile),
                                call, detect, shift, clock)
    // a stream object exists exactly when the platform is supported and its constructor returns
    ensures lin != null <==> SelectPlatform(system) == LinuxPlatform && ResolveMonitor(env.defaultSinkOut, env.sinkLines).Monitor?
    ensures win != null <==> SelectPlatform(system) == WindowsPlatform
    // the `finally` clause: the stream is stopped and its recorder or capture stream shut down
    ensures lin != null ==>
      && lin.Valid() && !lin.running && lin.streamProcess == null
      && lin.device == ResolveMonitor(env.defaultSinkOut, env.sinkLines).source
      && recorder != null && recorder.terminated && recorder.command == lin.parecCommand
    ensures lin == null ==> recorder == null
    ensures win != null ==>
      && win.Valid() && !win.running && win.stream == null
      && (capture != null <==> SelectLoopback(env.windows).Success?)
      && (capture != null ==> !capture.active && capture.closed && capture.params == win.OpenRequest(SelectLoopback(env.windows).value))
    ensures win == null ==> capture == null
  {
    lin, recorder, win, capture := null, null, null, null;
    var args := MainArgs(chunkSize, sampleRate, semitones, duration, outputFile);
    var platform := SelectPlatform(system);
    if platform.Unsupported? {
      exit := ExitedWithError(PlatformNotSupported(platform.name));
      return;
    }
    var s := SessionFor(args, call, detect, shift, clock);
    var path := OutputPath(outputFile, semitones);
    if platform == LinuxPlatform {
      var made := LinuxAudioStream.New(env.defaultSinkOut, env.sinkLines, chunkSize, sampleRate);
      if made.Failure? {
        exit := ExitedWithError(StreamFailed(made.error));
        return;
      }
      var stream := made.value;
      lin := stream;
      var started := stream.StartStream(env.recorderOutput);
      recorder := stream.streamProcess;
      var end, shifted := LinuxSession(stream, s);
      var stopped := stream.StopStream();
      exit := Finish(end, shifted, path, stream.rate);
    } else {
      var stream := new WindowsAudioStream(chunkSize, sampleRate);
      win := stream;
      var started := stream.StartStream(env.windows, env.captured);
      if started.Fail? {
        var stopped := stream.StopStream();
        exit := Crashed(StreamFailed(stopped.error));
        return;
      }
      capture := stream.stream;
      var end, shifted := WindowsSession(stream, s);
      var stopped := stream.StopStream();
      exit := Finish(end, shifted, path, stream.rate);
    }
  }
}
