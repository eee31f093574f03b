# stream_pitch_detector, modelled in Dafny

stream_pitch_detector captures the audio a computer is playing. It estimates the pitch of each captured chunk and writes a pitch-shifted recording. Capture goes through one of two back ends:

- **Linux**: PulseAudio's `parec`, recording from the monitor source of the default sink.
- **Windows**: a WASAPI loopback device opened through pyaudiowpatch.

This project models the logic around the foreign pieces. Pitch detection (aubio) and pitch shifting (librosa) are function parameters. The output of `pactl`, of `parec` and of the PyAudio device tables is passed in as input sequences.

The modules are:

- `Wrappers`: `Option`, `Result` and `Outcome` (a result without a value), used in place of exceptions.
- `Pcm`: decoding s16le bytes into samples, the `np.frombuffer(...).reshape(-1, channels)` decoding of a read buffer into rows of interleaved samples, and the stereo mixdown.
- `Text`: the Python string operations the code relies on: `str.split()`, `str.strip()`, `in` on strings, `str(int)` and `str.lower()` on ASCII.
- `PulseSinks`: finding the monitor source of the default sink, and the `parec` command line.
- `Capture`: what both back ends share: stream errors, and a byte stream read in fixed-size requests.
- `LinuxAudioStreams`: the `parec` child process and the `LinuxAudioStream` class. The class holds a nullable process handle and has start, stop and read operations.
- `PortAudio`: device records, the arguments of `PyAudio.open`, and the capture stream it returns.
- `WindowsAudioStreams`: the WASAPI loopback search and the `WindowsAudioStream` class.
- `LegacyDevices`: the older Stereo Mix search and `open_stream` in `audio/devices.py`.
- `LinuxScript`: the stand-alone recorder `linux/stream.py`. It copies every chunk `parec` produces to a WAV file and detects the pitch of the chunk's integer mixdown.
- `AudioProcessing`: `AudioProcessor`, with the float mixdown it hands to the detector and to the shifter.
- `StreamMain`: `main`. It covers platform dispatch and duration handling, the loop that collects shifted chunks, stopping the stream in `finally`, and the output file.

Each stateful operation is a method on a class. Each method is proved against a specification function, and the lemmas state what the source promises about that function.

Where the code differs from what its comments or the overall design suggest, the model follows the code:

- `WindowsAudioStream.start_stream` has no guard against a running stream. A second call replaces the stream and leaves the old one open.
- `start_stream` opens the device with `self.channels` channels. It computes the larger of the device's channel counts and never uses it.
- `start_stream` opens at the device's default sample rate. `main` still writes the file at `audio_stream.rate`, the rate it asked for.
- In `main`, when the Windows `start_stream` raises, the `finally` block calls `stop_stream` on a stream that never started. That call raises "Stream is not running", which replaces the `exit(1)`.

## Model

| member | source | states |
|---|---|---|
| Pcm.DecodeSamples | stream_pitch_detector/audio_streaming/linux_audio_stream.py:88 | an even-length buffer decodes to half as many samples; sample i is the little-endian two's-complement value of bytes 2i and 2i+1 |
| Pcm.DecodeEncodeSample | stream_pitch_detector/audio_streaming/linux_audio_stream.py:88 | decoding the two s16le bytes of any int16 gives it back |
| Pcm.EncodeDecodeSample | stream_pitch_detector/audio_streaming/linux_audio_stream.py:88 | every pair of bytes is the encoding of the sample it decodes to, so decoding loses nothing |
| Pcm.DecodeEncodeSamples | stream_pitch_detector/audio_streaming/linux_audio_stream.py:88 | decoding the encoding of any sample sequence gives the sequence back |
| Pcm.Reshape | stream_pitch_detector/audio_streaming/linux_audio_stream.py:86-88 | n*c samples become n rows of width c whose concatenation is the samples, unchanged |
| Pcm.FlattenAt | stream_pitch_detector/audio_streaming/linux_audio_stream.py:86-88 | row r, column k of rows of width c is interleaved sample r*c+k |
| Pcm.FlattenInjective | stream_pitch_detector/audio_streaming/linux_audio_stream.py:86-88 | equally many rows of the same width with equal concatenations are equal |
| Pcm.ReshapeFlatten | stream_pitch_detector/audio_streaming/linux_audio_stream.py:88 | reshaping the concatenation of rows of width c gives the rows back |
| Pcm.FromBuffer | stream_pitch_detector/audio_streaming/linux_audio_stream.py:88 | frombuffer+reshape succeed iff the length is even, channels > 0 and the sample count is a multiple of channels; an odd length gives the element-size error; on success, rows of width channels whose concatenation is the decoded samples and whose count times channels times 2 is the length |
| Pcm.FromBufferAt | stream_pitch_detector/audio_streaming/linux_audio_stream.py:86-88 | row r, column k of a decoded buffer is the sample of bytes 2(r*c+k) and 2(r*c+k)+1 |
| Pcm.EmptyReadDecodesToNoRows | stream_pitch_detector/audio_streaming/linux_audio_stream.py:84-88 | an empty read decodes to zero rows |
| Pcm.FromBufferEncode | stream_pitch_detector/audio_streaming/linux_audio_stream.py:88 | decoding the s16le encoding of any rows of width c gives those rows |
| Pcm.MeanMix | stream_pitch_detector/audio_processing/audio_processor.py:51-53 | one value per stereo row, exactly (L+R)/2 |
| Pcm.MeanMixBetween | stream_pitch_detector/audio_processing/audio_processor.py:53 | each mixed value lies between the row's two samples |
| Pcm.IntsToReals | linux/stream.py:59 | the float32 cast of int16 values keeps every value, element by element |
| Pcm.TruncToInt | stream_pitch_detector/audio_streaming/windows_audio_stream.py:33 | int() on a float rounds toward zero: for x >= 0 the result is at most x and within one below it; for x < 0 it is at least x and within one above it |
| Text.Split | stream_pitch_detector/audio_streaming/linux_audio_stream.py:42 | every field is non-empty and free of whitespace |
| Text.SplitJoinWords | stream_pitch_detector/audio_streaming/linux_audio_stream.py:42 | splitting words joined by single spaces gives the words back |
| Text.StripPadded | stream_pitch_detector/audio_streaming/linux_audio_stream.py:39 | stripping whitespace padding from a word gives the word |
| Text.Contains | stream_pitch_detector/audio_streaming/windows_audio_stream.py:88 | `needle in hay` iff needle occurs at some offset of hay |
| Text.ContainsInfix | stream_pitch_detector/audio_streaming/windows_audio_stream.py:88 | a string occurs in any string built around it |
| Text.IntToString | stream_pitch_detector/audio_streaming/linux_audio_stream.py:22-23 | str(n) is non-empty and made of digits and a minus sign |
| Text.ParseDigitsOfDigits | stream_pitch_detector/audio_streaming/linux_audio_stream.py:22-23 | reading back the decimal digits of n gives n |
| Text.ParseIntOfIntToString | stream_pitch_detector/audio_streaming/linux_audio_stream.py:22-23 | int(str(n)) == n |
| Text.IntToStringInjective | stream_pitch_detector/audio_streaming/linux_audio_stream.py:22-23 | distinct integers print differently |
| Text.Lower | stream_pitch_detector/main.py:31 | same length; each character lowered |
| PulseSinks.FirstStop | stream_pitch_detector/audio_streaming/linux_audio_stream.py:41-45 | the first sink line at or after i that does not have a second field different from the default sink |
| PulseSinks.ResolveMonitor | stream_pitch_detector/audio_streaming/linux_audio_stream.py:39-47 | definition of the outcome of the sink scan (no match, IndexError at a short line, or the monitor source); characterised by PulseSinks.ResolveMonitorCases and computed by PulseSinks.ScanSinks |
| PulseSinks.ScanSinks | stream_pitch_detector/audio_streaming/linux_audio_stream.py:39-47 | the sink loop, with its early returns, computes ResolveMonitor |
| PulseSinks.ResolveMonitorCases | stream_pitch_detector/audio_streaming/linux_audio_stream.py:39-47 | no match iff every line has a second field other than the stripped default sink; IndexError at line j iff j is the first line without a second field; the first line naming the sink gives sink + ".monitor" |
| PulseSinks.MonitorSourceShape | stream_pitch_detector/audio_streaming/linux_audio_stream.py:44 | a resolved source is non-empty and ends in ".monitor" |
| PulseSinks.UnsplittableDefaultNeverResolves | stream_pitch_detector/audio_streaming/linux_audio_stream.py:39-43 | a default sink that is empty or holds whitespace after stripping never matches |
| PulseSinks.ParecCommand | stream_pitch_detector/audio_streaming/linux_audio_stream.py:19-25 | nine words starting with "parec" |
| PulseSinks.ParecCommandDetermines | stream_pitch_detector/audio_streaming/linux_audio_stream.py:19-25 | the command determines the device, the rate and the channel count |
| Capture.Take | stream_pitch_detector/audio_streaming/linux_audio_stream.py:84 | a read of n bytes returns min(n, available) bytes |
| Capture.Drop | stream_pitch_detector/audio_streaming/linux_audio_stream.py:84 | what a read returns followed by what is left is the stream |
| Capture.ConcatReadsThenRest | linux/stream.py:77-81 | the first k reads in order, then what is left, are the whole stream, unmodified |
| Capture.EmptyReadMeansExhausted | linux/stream.py:77-79 | a read of n > 0 bytes is empty iff the stream is exhausted |
| Capture.DecodeRead | stream_pitch_detector/audio_streaming/linux_audio_stream.py:84-90 | a read buffer decodes exactly as FromBuffer does, its errors wrapped as stream errors |
| LinuxAudioStreams.RecorderProcess.Spawn | stream_pitch_detector/audio_streaming/linux_audio_stream.py:55 | a running process with the given command and output |
| LinuxAudioStreams.RecorderProcess.Read | stream_pitch_detector/audio_streaming/linux_audio_stream.py:84 | returns the next n bytes (fewer at the end) and consumes them |
| LinuxAudioStreams.RecorderProcess.Terminate | stream_pitch_detector/audio_streaming/linux_audio_stream.py:66 | marks the process terminated and leaves its output as it was |
| LinuxAudioStreams.LinuxAudioStream.Init | stream_pitch_detector/audio_streaming/linux_audio_stream.py:10-27 | fields set, parec_command built from them, no process |
| LinuxAudioStreams.LinuxAudioStream.New | stream_pitch_detector/audio_streaming/linux_audio_stream.py:10-27 | when no sink matches it raises, and when a sink line is short it raises IndexError; in both cases no stream or process exists; otherwise the device is the resolved monitor |
| LinuxAudioStreams.LinuxAudioStream.StartStream | stream_pitch_detector/audio_streaming/linux_audio_stream.py:54-58 | when stopped, spawns parec and sets the handle; when running, raises and leaves the handle unchanged |
| LinuxAudioStreams.LinuxAudioStream.StopStream | stream_pitch_detector/audio_streaming/linux_audio_stream.py:65-70 | when running, terminates the process and clears the handle; when stopped, raises |
| LinuxAudioStreams.LinuxAudioStream.StreamAudioChunk | stream_pitch_detector/audio_streaming/linux_audio_stream.py:81-90 | when stopped, raises and changes nothing; otherwise reads chunk_size*channels*2 bytes and decodes them into rows of `channels` |
| LinuxAudioStreams.RestartAfterStop | stream_pitch_detector/audio_streaming/linux_audio_stream.py:54-70 | start, start again (raises), stop, start: the last start succeeds with a fresh recorder |
| PortAudio.CaptureStream.Open | stream_pitch_detector/audio_streaming/windows_audio_stream.py:31-37 | an active stream with the given parameters |
| PortAudio.CaptureStream.Read | stream_pitch_detector/audio_streaming/windows_audio_stream.py:61 | read(frames) returns frames*channels*2 bytes (fewer at the end) |
| PortAudio.CaptureStream.StopStream | stream_pitch_detector/audio_streaming/windows_audio_stream.py:45 | the stream is no longer active |
| PortAudio.CaptureStream.Close | stream_pitch_detector/audio_streaming/windows_audio_stream.py:46 | the stream is closed |
| WindowsAudioStreams.DeviceByIndex | stream_pitch_detector/audio_streaming/windows_audio_stream.py:83 | get_device_info_by_index returns the device at a valid index and raises otherwise |
| WindowsAudioStreams.FirstNameMatch | stream_pitch_detector/audio_streaming/windows_audio_stream.py:86-90 | the first loopback device, in generator order, whose name contains the given name |
| WindowsAudioStreams.SelectLoopback | stream_pitch_detector/audio_streaming/windows_audio_stream.py:76-97 | definition of the device find_loopback_output returns or the error it raises; characterised by WindowsAudioStreams.SelectLoopbackCases and computed by WindowsAudioStreams.WindowsAudioStream.FindLoopbackOutput |
| WindowsAudioStreams.SelectLoopbackCases | stream_pitch_detector/audio_streaming/windows_audio_stream.py:76-97 | raises before any search when WASAPI is missing; the default device is returned as is when it is a loopback device; otherwise the first loopback device whose name contains its name is returned, and it raises iff there is none |
| WindowsAudioStreams.WindowsAudioStream.constructor | stream_pitch_detector/audio_streaming/windows_audio_stream.py:8-22 | fields set, no stream |
| WindowsAudioStreams.WindowsAudioStream.FindLoopbackOutput | stream_pitch_detector/audio_streaming/windows_audio_stream.py:76-97 | the for-else search computes SelectLoopback |
| WindowsAudioStreams.WindowsAudioStream.OpenRequest | stream_pitch_detector/audio_streaming/windows_audio_stream.py:31-37 | int16, `self.channels` channels, int(device default rate), input from the device's index, chunk_size frames per buffer, not loopback mode |
| WindowsAudioStreams.WindowsAudioStream.StartStream | stream_pitch_detector/audio_streaming/windows_audio_stream.py:24-37 | on a failed search, raises and keeps the old stream; otherwise opens OpenRequest on the device and replaces the stream, with no running guard, leaving any old stream open |
| WindowsAudioStreams.WindowsAudioStream.StopStream | stream_pitch_detector/audio_streaming/windows_audio_stream.py:44-50 | with a stream, stops and closes it and clears the field; without one, raises |
| WindowsAudioStreams.WindowsAudioStream.StreamAudioChunk | stream_pitch_detector/audio_streaming/windows_audio_stream.py:58-64 | without a stream, raises and changes nothing; otherwise reads chunk_size frames and decodes them into rows of `channels` |
| LegacyDevices.CheckWasapi | audio/devices.py:23-24 | definition: the name of the device's host API contains "WASAPI"; characterised by LegacyDevices.CheckCriteria |
| LegacyDevices.CheckStereoMix | audio/devices.py:26-29 | definition: the device name contains one of the two Stereo Mix names; characterised by LegacyDevices.CheckCriteria |
| LegacyDevices.CheckCriteria | audio/devices.py:23-29 | both checks hold iff the host API name contains "WASAPI" and the device name contains "Stereo Mix" or "ステレオ ミキサー" |
| LegacyDevices.FirstStereoMix | audio/devices.py:15-21 | the first device at or after i that passes both checks |
| LegacyDevices.FindLoopbackOutput | audio/devices.py:15-21 | returns None iff no device passes both checks, else the lowest-indexed one that does |
| LegacyDevices.FoundIsLowestIndexed | audio/devices.py:15-21 | a passing device preceded only by failing ones is the one found |
| LegacyDevices.ChannelCount | audio/devices.py:35 | max(maxInputChannels, maxOutputChannels) |
| LegacyDevices.OpenStream | audio/devices.py:31-45 | no device: fails; otherwise int16, ChannelCount channels, int(default rate), the device's index, 512 frames per buffer, input in loopback mode |
| LinuxScript.GetDefaultSinkMonitor | linux/stream.py:13-22 | same first-match rule as the class version, but None when no line names the sink |
| LinuxScript.TruncMean | linux/stream.py:53 | the float mean of two samples truncated toward zero |
| LinuxScript.MixTruncated | linux/stream.py:53 | one int16 per stereo row; characterised by LinuxScript.MixTruncatedMean and LinuxScript.MixTruncatedBounds |
| LinuxScript.MixTruncatedMean | linux/stream.py:53 | the integer mixdown is the float mixdown truncated toward zero, element by element |
| LinuxScript.MixTruncatedBounds | linux/stream.py:53 | each mixed sample lies between min(L,R) and max(L,R), so the int16 cast never wraps; twice it is within one of L+R, rounded toward zero |
| LinuxScript.ProcessAudioChunk | linux/stream.py:46-63 | definition of process_audio_chunk: decode, integer mixdown, float cast, first detector output; characterised by LinuxScript.ProcessAudioChunkRejectsPartialFrames and LinuxScript.ProcessAudioChunkInput |
| LinuxScript.ProcessAudioChunkRejectsPartialFrames | linux/stream.py:49-53 | a chunk that is not whole 4-byte frames raises before the detector runs; an odd length gives the element-size error |
| LinuxScript.DetectorInput | linux/stream.py:49-59 | one value per 4-byte frame: the truncated mean of its left and right samples |
| LinuxScript.ProcessAudioChunkInput | linux/stream.py:46-63 | on whole frames the pitch is the first output of the detector on DetectorInput, and a detector exception propagates |
| LinuxScript.WaveWriter.Open | linux/stream.py:68-71 | header parameters set, nothing written |
| LinuxScript.WaveWriter.WriteFrames | linux/stream.py:81 | appends the bytes |
| LinuxScript.WaveWriter.Close | linux/stream.py:68 | the file is closed with its frames unchanged |
| LinuxScript.LoopOutcome | linux/stream.py:73-89 | definition of how the recording loop ends (interrupt, empty read, or a chunk process_audio_chunk rejects) and how many chunks it wrote; computed by LinuxScript.RecordLoop and characterised by LinuxScript.EndOfStreamDrained and LinuxScript.EndOfStreamWritesEverything |
| LinuxScript.RecordLoop | linux/stream.py:73-89 | ends as LoopOutcome says; the file holds exactly the bytes of the chunks read, in order, unmixed; the recorder is terminated on every exit |
| LinuxScript.EndOfStreamDrained | linux/stream.py:77-79 | a loop that ends on an empty read has consumed the whole stream |
| LinuxScript.EndOfStreamWritesEverything | linux/stream.py:75-81 | when the loop ends on an empty read, the file holds every byte parec produced |
| LinuxScript.RunScript | linux/stream.py:24-89 | no monitor (or a short sink line) raises before any process exists; otherwise parec runs with the resolved device at 44100 Hz with 2 channels, output.wav gets 2 channels of 2 bytes at 44100 Hz and the bytes of the chunks read, the recorder is terminated and the file closed |
| AudioProcessing.SignalOf | stream_pitch_detector/audio_processing/audio_processor.py:50-53 | a two-channel chunk becomes the exact channel means; any other chunk is passed on unchanged |
| AudioProcessing.FirstOutput | stream_pitch_detector/audio_processing/audio_processor.py:56 | `detector(x)[0]`: succeeds iff the detector returns a non-empty output, with its first element; the detector's exception propagates; an empty output raises IndexError |
| AudioProcessing.AudioProcessor.GetChunkPitch | stream_pitch_detector/audio_processing/audio_processor.py:35-58 | the first output of the detector on SignalOf(chunk); the detector's exception, or IndexError on an empty output, otherwise |
| AudioProcessing.AudioProcessor.ShiftRequest | stream_pitch_detector/audio_processing/audio_processor.py:74-81 | the shifter gets SignalOf(chunk), sr = sample_rate, n_steps = semitones and n_fft = the number of rows, so a mixed chunk is not padded |
| AudioProcessing.AudioProcessor.ShiftPitch | stream_pitch_detector/audio_processing/audio_processor.py:60-83 | definition: librosa's answer for ShiftRequest, an exception included; the arguments are characterised by AudioProcessing.AudioProcessor.ShiftRequest |
| AudioProcessing.NewAudioProcessor | stream_pitch_detector/audio_processing/audio_processor.py:10-33 | stores its arguments unchanged; defaults 512/512/44100/"Hz"/0.8 |
| AudioProcessing.ToReals | stream_pitch_detector/audio_processing/audio_processor.py:48 | the float cast keeps every value of every row |
| AudioProcessing.MixesDownBounds | stream_pitch_detector/audio_processing/audio_processor.py:53 | a mixdown is unique and each value lies between the two channel samples |
| AudioProcessing.StereoChunkSignal | stream_pitch_detector/audio_processing/audio_processor.py:51-53 | a stereo chunk is handed on as one mean per row |
| StreamMain.SelectPlatform | stream_pitch_detector/main.py:31-40 | Linux iff the lowered name contains "linux"; Windows iff it does not but contains "windows"; otherwise unsupported, named by the lowered name |
| StreamMain.RecordingLimit | stream_pitch_detector/main.py:50-51 | unbounded iff the duration is negative, else that many seconds |
| StreamMain.OutputPath | stream_pitch_detector/main.py:74 | "output/<output_file>_" followed by str(semitones) and ".wav" |
| StreamMain.OutputPathInjective | stream_pitch_detector/main.py:74 | different semitone counts give different file names |
| StreamMain.ToInt16 | stream_pitch_detector/main.py:80 | the truncated value when it fits in int16, congruent to it modulo 2^16 always |
| StreamMain.CastAll | stream_pitch_detector/main.py:80 | element-wise ToInt16 |
| StreamMain.Concat | stream_pitch_detector/main.py:73 | definition of np.concatenate on a list of one-dimensional chunks; characterised by StreamMain.ConcatAt |
| StreamMain.ConcatAt | stream_pitch_detector/main.py:73 | the concatenation holds every chunk whole and in order, each after the chunks before it |
| StreamMain.Iteration | stream_pitch_detector/main.py:54-58 | definition of the loop body; characterised by StreamMain.IterationCases |
| StreamMain.IterationCases | stream_pitch_detector/main.py:54-58 | an iteration completes iff the read, the pitch call and the shift all succeed, yielding the shifted chunk; otherwise the first exception propagates: the read error, the missing get_chunk_note attribute, the detector's error, or the shifter's |
| StreamMain.NextChunk | stream_pitch_detector/main.py:54 | a decoded chunk has rows of its channel count |
| StreamMain.SessionLoop | stream_pitch_detector/main.py:53-65 | definition of the while loop and its two except clauses: how the loop ends and what it collected; computed by StreamMain.LinuxSession and StreamMain.WindowsSession and characterised by StreamMain.SessionLoopOutcome |
| StreamMain.ShiftedRange | stream_pitch_detector/main.py:53-58 | one shifted chunk per iteration |
| StreamMain.SessionFor | stream_pitch_detector/main.py:42-51 | definition of the processor and loop inputs main builds: buffer and hop size chunk_size, the requested rate, two-channel reads of chunk_size frames, and the duration limit |
| StreamMain.MainOutcome | stream_pitch_detector/main.py:16-81 | definition of how main ends; computed by StreamMain.RunMain and characterised by StreamMain.MainWritesShiftedChunks, StreamMain.MainAsWrittenNeverWrites and StreamMain.NoChunkNoFile |
| StreamMain.Finish | stream_pitch_detector/main.py:60-81 | an exception in the loop exits with status 1; an empty list crashes in np.concatenate; otherwise the file at the path and rate holds the int16 cast of the concatenated chunks |
| StreamMain.ForeverNeverTimesUp | stream_pitch_detector/main.py:50-53 | with a negative duration the loop never ends by time |
| StreamMain.GetChunkNoteCollectsNothing | stream_pitch_detector/main.py:53-58 | calling get_chunk_note, the loop raises in its first iteration or collects nothing |
| StreamMain.MainAsWrittenNeverWrites | stream_pitch_detector/main.py:16-81 | as written, main never writes the output file |
| StreamMain.SessionLoopStep | stream_pitch_detector/main.py:53-58 | a completed iteration appends its shifted chunk and hands the rest of the stream to the next |
| StreamMain.StopIteration | stream_pitch_detector/main.py:53-61 | the first iteration at or after k where the loop stops (interrupt, time up, or an exception); every iteration before it completes inside the time limit |
| StreamMain.SessionLoopStops | stream_pitch_detector/main.py:53-65 | at a stopping iteration the loop ends as the interrupt, the time check or the exception says, collecting nothing more |
| StreamMain.LoopCollectsStep | stream_pitch_detector/main.py:53-58 | one completed iteration puts its shifted chunk in front of what the rest of the loop collects |
| StreamMain.LoopCollectsUntilStop | stream_pitch_detector/main.py:53-65 | from iteration k, the loop ends as its first stopping iteration n says, having collected exactly the shifted chunks of iterations k up to n, in capture order |
| StreamMain.StopIterationAt | stream_pitch_detector/main.py:53-58 | when iterations k up to n complete and the loop stops at n, n is the first stopping iteration |
| StreamMain.SessionLoopOutcome | stream_pitch_detector/main.py:47-65 | every session ends as its first stopping iteration says, having collected exactly the shifted chunks before it |
| StreamMain.MainWritesShiftedChunks | stream_pitch_detector/main.py:16-81 | with get_chunk_pitch, a run on either platform whose stream starts and whose first n >= 1 iterations complete before the interrupt or the end of the duration writes the n shifted chunks, in order, cast to int16, to output/<file>_<semitones>.wav at the requested rate |
| StreamMain.NoChunkNoFile | stream_pitch_detector/main.py:47-73 | interrupted or out of time before the first chunk, main crashes in np.concatenate |
| StreamMain.LinuxSession | stream_pitch_detector/main.py:53-58 | the loop over a running Linux stream computes SessionLoop and leaves the stream running |
| StreamMain.WindowsSession | stream_pitch_detector/main.py:53-58 | the loop over a running Windows stream computes SessionLoop and leaves the stream running |
| StreamMain.RunMain | stream_pitch_detector/main.py:16-81 | main ends as MainOutcome says: dispatch, stream construction, loop, then concatenate and write; a stream object exists iff the platform is supported and its constructor returned, and the `finally` clause leaves it stopped, its parec process terminated or its capture stream stopped and closed |

## Left out

- Pitch detection (aubio) and pitch shifting (librosa) are function parameters. Each may raise, and the model propagates that as the source does. Their numerics are not modelled. The detector is a function of one input, so the history aubio keeps between calls is not modelled either.
- The processes and libraries are represented only by their inputs and outputs, with their failures left out:
  - `pactl` and `parec` are represented by their output text and bytes; `Popen` failures are not modelled.
  - PyAudio is represented by its device tables and captured bytes; errors from `PyAudio()` and `open` are not modelled.
- Writing the WAV file with `wave` and `scipy`, `os.makedirs`, and every `print` are not modelled. The WAV file is a value holding its header parameters and samples.
- Clocks and interrupts are inputs:
  - `time.time()` is a sequence of elapsed times, one per loop test.
  - KeyboardInterrupt is modelled only at the start of a loop iteration.
  - In `main`, every modelled run is interrupted by some iteration. This bounds the loop.
- A read returns fewer bytes than requested only when the stream ends. This is how `BufferedReader.read(n)` behaves on a pipe. A live capture stream would block instead.
- StreamMain.ToInt16: outside the int16 range, numpy's float-to-int16 cast is platform-dependent. The model reduces the truncated value modulo 2^16.
- AudioProcessing.AudioProcessor.ShiftPitch: the shifter's output for a chunk that is not stereo is modelled as a flat sequence. `main` never reaches that case, because both back ends are built with two channels.
- The `format` argument of both stream constructors is fixed to int16 (`np.int16` and `paInt16`). `main` never passes it, and the decoding is written for two-byte samples.
- Text.Lower: lowers ASCII letters only. Platform dispatch is unaffected, since no other character lowers to a letter of "linux" or "windows"; only the name carried by an unsupported platform can differ from Python's `str.lower()`.
- `audio_stream.py`, the abstract base of the two stream classes, is left out. It only raises NotImplementedError.
- `main.py` at the top level and `audio/processing.py` are left out. They are a busy-wait loop, a print and a PyAudio callback.
- The module-level side effects of `audio/devices.py` and `linux/stream.py` are modelled only as the calls they make: LegacyDevices.OpenStream and LinuxScript.RunScript.
- Note-name mapping: `main` calls `get_chunk_note`, which `AudioProcessor` does not define. There is no code for it to model (see Findings).

## Findings

| source | as written | input that shows it | evidently intended | confidence | as-written member | corrected member |
|---|---|---|---|---|---|---|
| stream_pitch_detector/main.py:55 | the loop calls `audio_processor.get_chunk_note(chunk)`, which AudioProcessor does not define. The first iteration raises AttributeError, and main exits with status 1. A run with no iteration crashes in `np.concatenate([])`. Either way no file is written. | Linux, default sink resolved, duration 60, a first chunk read at elapsed time 0 | call `get_chunk_pitch`, the pitch method AudioProcessor defines | not executed | StreamMain.MainAsWrittenNeverWrites | StreamMain.MainWritesShiftedChunks |
