/**
 * LinuxAudioStream: loopback capture on Linux by running `parec` on the
 * monitor source of the default PulseAudio sink and reading interleaved
 * s16le frames from its stdout pipe.
 */
module LinuxAudioStreams {
  import opened Wrappers
  import opened Pcm
  import opened Capture
  import opened PulseSinks

  /** A spawned `parec` process: the bytes it has yet to write to its stdout pipe. */
  class RecorderProcess {
    const command: seq<string>
    var pending: seq<byte>
    var terminated: bool

    /** subprocess.Popen(command, stdout=PIPE) of a recorder that will write `output`. */
    constructor Spawn(command: seq<string>, output: seq<byte>)
      ensures this.command == command && pending == output && !terminated
    {
      this.command := command;
      pending := output;
      terminated := false;
    }

    /** stdout.read(n): n bytes, or fewer once the pipe reaches its end. */
    method Read(n: nat) returns (data: seq<byte>)
      modifies this
      ensures data == Take(old(pending), n) && pending == Drop(old(pending), n)
      ensures terminated == old(terminated)
    {
      data := Take(pending, n);
      pending := Drop(pending, n);
    }

    /** terminate(): signals the process; what it already wrote stays readable. */
    method Terminate()
      modifies this
      ensures terminated && pending == old(pending)
    {
      terminated := true;
    }
  }

  class LinuxAudioStream {
    const os: string
    const chunkSize: nat
    const rate: nat
    const channels: nat
    const device: string
    const parecCommand: seq<string>
    var streamProcess: RecorderProcess?

    ghost var running: bool
    ghost var Repr: set<object>

    ghost predicate Valid()
      reads this, Repr
    {
      && this in Repr
      && os == "linux"
      && parecCommand == ParecCommand(device, rate, channels)
      && running == (streamProcess != null)
      && Repr == {this} + (if streamProcess == null then {} else {streamProcess})
      && (streamProcess != null ==> streamProcess.command == parecCommand)
    }

    /** The bytes the running recorder has yet to deliver; none when stopped. */
    ghost function Pending(): seq<byte>
      reads this, Repr
      requires Valid()
    {
      if streamProcess == null then [] else streamProcess.pending
    }

    /** Bytes requested per read: chunk_size frames of `channels` two-byte samples. */
    function ReadSize(): nat
    {
      ChunkBytes(chunkSize, channels)
    }

    /** The part of __init__ after the monitor source is known. */
    constructor Init(chunkSize: nat, rate: nat, channels: nat, device: string)
      ensures Valid() && fresh(Repr) && !running
      ensures this.chunkSize == chunkSize && this.rate == rate && this.channels == channels
      ensures this.device == device
    {
      os := "linux";
      this.chunkSize := chunkSize;
      this.rate := rate;
      this.channels := channels;
      this.device := device;
      parecCommand := ParecCommand(device, rate, channels);
      streamProcess := null;
      running := false;
      Repr := {this};
    }

    /**
     * __init__: resolves the monitor source from the output of
     * `pactl get-default-sink` and `pactl list short sinks`, raising when it
     * cannot, so that no stream (and no process) exists on failure.
     */
    static method New(defaultSinkOut: string, sinkLines: seq<string>,
                      chunkSize: nat := 1024, rate: nat := 44100, channels: nat := 2)
      returns (r: Result<LinuxAudioStream, StreamError>)
      ensures ResolveMonitor(defaultSinkOut, sinkLines) == NoMatch ==> r == Failure(MonitorNotFound)
      ensures ResolveMonitor(defaultSinkOut, sinkLines).ShortLine? ==>
        r == Failure(SinkLineIndexError(ResolveMonitor(defaultSinkOut, sinkLines).line))
      ensures ResolveMonitor(defaultSinkOut, sinkLines).Monitor? ==>
        && r.Success? && fresh(r.value) && r.value.Valid() && fresh(r.value.Repr) && !r.value.running
        && r.value.device == ResolveMonitor(defaultSinkOut, sinkLines).source
        && r.value.chunkSize == chunkSize && r.value.rate == rate && r.value.channels == channels
    {
      var scan := ScanSinks(defaultSinkOut, sinkLines);
      if scan.Monitor? {
        var s := new LinuxAudioStream.Init(chunkSize, rate, channels, scan.source);
        r := Success(s);
      } else if scan.NoMatch? {
        r := Failure(MonitorNotFound);
      } else {
        r := Failure(SinkLineIndexError(scan.line));
      }
    }

    /** start_stream: spawns parec (whose stdout will carry `recorderOutput`) unless one is running. */
    method StartStream(recorderOutput: seq<byte>) returns (r: Outcome<StreamError>)
      requires Valid()
      modifies this
      ensures Valid() && fresh(Repr - old(Repr)) && running
      ensures old(running) ==> r == Fail(AlreadyRunning) && streamProcess == old(streamProcess)
      ensures !old(running) ==>
        && r == Pass && fresh(streamProcess)
        && streamProcess.pending == recorderOutput && !streamProcess.terminated
    {
      if streamProcess == null {
        streamProcess := new RecorderProcess.Spawn(parecCommand, recorderOutput);
        running := true;
        Repr := {this, streamProcess};
        r := Pass;
      } else {
        r := Fail(AlreadyRunning);
      }
    }

    /** stop_stream: terminates the recorder and forgets it, or raises when none runs. */
    method StopStream() returns (r: Outcome<StreamError>)
      requires Valid()
      modifies Repr
      ensures Valid() && Repr == {this} && !running && streamProcess == null
      ensures r == if old(running) then Pass else Fail(NotRunning)
      ensures old(running) ==> old(streamProcess).terminated && old(streamProcess).pending == old(Pending())
    {
      if streamProcess != null {
        streamProcess.Terminate();
        streamProcess := null;
        running := false;
        Repr := {this};
        r := Pass;
      } else {
        r := Fail(NotRunning);
      }
    }

    /**
     * stream_audio_chunk: reads ReadSize() bytes from the recorder and decodes
     * them into rows of `channels` samples; raises, changing nothing, when no
     * recorder runs.
     */
    method StreamAudioChunk() returns (r: Result<Frame, StreamError>)
      requires Valid()
      modifies Repr
      ensures Valid() && Repr == old(Repr) && running == old(running) && streamProcess == old(streamProcess)
      ensures streamProcess != null ==> streamProcess.terminated == old(streamProcess.terminated)
      ensures !old(running) ==> r == Failure(NotRunning)
      ensures old(running) ==>
        && r == DecodeRead(Take(old(Pending()), ReadSize()), channels)
        && Pending() == Drop(old(Pending()), ReadSize())
    {
      if streamProcess == null {
        return Failure(NotRunning);
      }
      var chunkBin := streamProcess.Read(ReadSize());
      r := DecodeRead(chunkBin, channels);
    }
  }

  /** A stop after a start leaves the stream able to start again, with a fresh recorder. */
  method RestartAfterStop(s: LinuxAudioStream, first: seq<byte>, second: seq<byte>)
    returns (r1: Outcome<StreamError>, r2: Outcome<StreamError>, r3: Outcome<StreamError>, r4: Outcome<StreamError>)
    requires s.Valid() && !s.running
    modifies s
    ensures r1 == Pass && r2 == Fail(AlreadyRunning) && r3 == Pass && r4 == Pass
    ensures s.Valid() && s.running && s.Pending() == second
  {
    r1 := s.StartStream(first);
    r2 := s.StartStream(second);
    r3 := s.StopStream();
    r4 := s.StartStream(second);
  }
}
